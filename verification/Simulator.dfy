/** The first simulator: a signal at the close of one bar buys at the next open and sells a fixed number of bars later
    (simulador.py, `simular_operaciones`). */
module Simulator {
  import opened Maybe

  /** A price that is missing, not finite or not positive is `None`. */
  datatype Bar = Bar(open: Option<real>, high: Option<real>, low: Option<real>, close: Option<real>)

  predicate Usable(price: Option<real>) { price.Some? && price.value > 0.0 }

  datatype Config = Config(capital: real, percent: real, hold: nat, cost: real)

  datatype Position = Position(entry: nat, price: real, quantity: real, before: real, used: real, unused: real,
                               exitAt: nat, cost: real)

  datatype Trade = Trade(entry: nat, exit: nat, price: real, exitPrice: real, gross: real, net: real, after: real)

  datatype State = State(capital: real, open: Option<Position>, trades: seq<Trade>, curve: seq<real>)

  predicate Valid(cfg: Config) {
    cfg.capital > 0.0 && 0.0 < cfg.percent <= 100.0 && cfg.hold > 0 && cfg.cost >= 0.0
  }

  function Start(cfg: Config): State { State(cfg.capital, None, [], [cfg.capital]) }

  function Buy(cfg: Config, capital: real, i: nat, price: real): Position
    requires price > 0.0
  {
    var used := capital * cfg.percent / 100.0;
    Position(i, price, used / price, capital, used, capital - used, i + cfg.hold, used * cfg.cost / 100.0)
  }

  function Enter(cfg: Config, s: State, i: nat, signalled: bool, bar: Bar): Option<Position> {
    if s.open.Some? || s.capital <= 0.0 || !signalled || !Usable(bar.open) then s.open
    else Some(Buy(cfg, s.capital, i, bar.open.value))
  }

  function Worth(p: Position, close: real): real { p.unused + p.quantity * close }

  function Exit(p: Position, i: nat, close: real): Trade {
    var gross := p.quantity * close - p.used;
    Trade(p.entry, i, p.price, close, gross, gross - p.cost, p.before + (gross - p.cost))
  }

  /** One bar; `None` when an open position cannot be valued. */
  function Step(cfg: Config, s: State, i: nat, signalled: bool, bar: Bar): Option<State> {
    var open := Enter(cfg, s, i, signalled, bar);
    if open.None? then Some(s.(curve := s.curve + [s.capital]))
    else if !Usable(bar.close) then None
    else if i == open.value.exitAt then
      var trade := Exit(open.value, i, bar.close.value);
      Some(State(trade.after, None, s.trades + [trade], s.curve + [trade.after]))
    else Some(s.(open := open, curve := s.curve + [Worth(open.value, bar.close.value)]))
  }

  /** The run over a history: bar `i` sees the signal of bar `i - 1` and nothing later. */
  function Simulated(cfg: Config, bars: seq<Bar>, signals: seq<bool>): Option<State>
    requires |signals| == |bars|
  {
    if bars == [] then Some(Start(cfg))
    else
      var n := |bars| - 1;
      match Simulated(cfg, bars[..n], signals[..n])
      case None => None
      case Some(s) => Step(cfg, s, n, n > 0 && signals[n - 1], bars[n])
  }

  datatype Result = NoInput | Failed | Done(final: State)

  method Simulate(cfg: Config, bars: seq<Bar>, signals: seq<bool>) returns (result: Result)
    requires |signals| == |bars|
    ensures result == if bars == [] || !Valid(cfg) then NoInput
                      else match Simulated(cfg, bars, signals)
                           case None => Failed
                           case Some(s) => Done(s)
  {
    if bars == [] || !Valid(cfg) {
      return NoInput;
    }
    var capital, trades, curve := cfg.capital, [], [cfg.capital];
    var open: Option<Position> := None;
    for i := 0 to |bars|
      invariant Simulated(cfg, bars[..i], signals[..i]) == Some(State(capital, open, trades, curve))
    {
      assert bars[..i + 1][..i] == bars[..i] && signals[..i + 1][..i] == signals[..i];
      ghost var before, signalled := State(capital, open, trades, curve), i > 0 && signals[i - 1];
      assert Simulated(cfg, bars[..i + 1], signals[..i + 1]) == Step(cfg, before, i, signalled, bars[i]);
      if open.None? && capital > 0.0 && i > 0 && signals[i - 1] && Usable(bars[i].open) {
        open := Some(Buy(cfg, capital, i, bars[i].open.value));
      }
      assert open == Enter(cfg, before, i, signalled, bars[i]);
      var equity := capital;
      if open.Some? {
        if !Usable(bars[i].close) {
          FailsFrom(cfg, bars, signals, i + 1);
          return Failed;
        }
        var close := bars[i].close.value;
        equity := Worth(open.value, close);
        if i == open.value.exitAt {
          var trade := Exit(open.value, i, close);
          capital, trades, open := trade.after, trades + [trade], None;
          equity := capital;
        }
      }
      curve := curve + [equity];
      assert Step(cfg, before, i, signalled, bars[i]) == Some(State(capital, open, trades, curve));
    }
    assert bars[..|bars|] == bars && signals[..|signals|] == signals;
    return Done(State(capital, open, trades, curve));
  }

  lemma {:induction false} FailsFrom(cfg: Config, bars: seq<Bar>, signals: seq<bool>, k: nat)
    requires |signals| == |bars| && k <= |bars| && Simulated(cfg, bars[..k], signals[..k]).None?
    ensures Simulated(cfg, bars, signals).None?
    decreases |bars|
  {
    if k < |bars| {
      var n := |bars| - 1;
      assert bars[..n][..k] == bars[..k] && signals[..n][..k] == signals[..k];
      FailsFrom(cfg, bars[..n], signals[..n], k);
    } else {
      assert bars[..k] == bars && signals[..k] == signals;
    }
  }

  // --- properties --------------------------------------------------------------------------------------------------

  /** The prefix of a history gave `part`, the whole gave `full`. */
  ghost predicate Extends(part: State, full: State, k: nat, n: nat) {
    && |part.curve| == k + 1 && |full.curve| == n + 1 && part.curve <= full.curve
    && part.trades <= full.trades
    && forall j :: |part.trades| <= j < |full.trades| ==> full.trades[j].exit >= k
  }

  lemma StepExtends(cfg: Config, s: State, i: nat, signalled: bool, bar: Bar)
    requires Step(cfg, s, i, signalled, bar).Some? && |s.curve| == i + 1
    ensures Extends(s, Step(cfg, s, i, signalled, bar).value, i, i + 1)
  {}

  lemma ExtendsTransitive(a: State, b: State, c: State, k: nat, m: nat, n: nat)
    requires Extends(a, b, k, m) && Extends(b, c, m, n) && k <= m <= n
    ensures Extends(a, c, k, n)
  {
    forall j | |a.trades| <= j < |c.trades| ensures c.trades[j].exit >= k {
      if j < |b.trades| { assert c.trades[j] == b.trades[j]; }
    }
  }

  /** No look-ahead: a run that succeeds gives, on every prefix of the history, the prefix of its curve and exactly the
      trades that had closed by then. */
  lemma {:induction false} PrefixIsPrefix(cfg: Config, bars: seq<Bar>, signals: seq<bool>, k: nat)
    requires |signals| == |bars| && k <= |bars| && Simulated(cfg, bars, signals).Some?
    ensures Simulated(cfg, bars[..k], signals[..k]).Some?
    ensures Extends(Simulated(cfg, bars[..k], signals[..k]).value, Simulated(cfg, bars, signals).value, k, |bars|)
    decreases |bars|
  {
    if k < |bars| {
      var n := |bars| - 1;
      assert bars[..n][..k] == bars[..k] && signals[..n][..k] == signals[..k];
      PrefixIsPrefix(cfg, bars[..n], signals[..n], k);
      var mid := Simulated(cfg, bars[..n], signals[..n]).value;
      StepExtends(cfg, mid, n, n > 0 && signals[n - 1], bars[n]);
      ExtendsTransitive(Simulated(cfg, bars[..k], signals[..k]).value, mid, Simulated(cfg, bars, signals).value, k, n,
                        |bars|);
    } else {
      assert bars[..k] == bars && signals[..k] == signals;
      CurveLength(cfg, bars, signals);
    }
  }

  lemma {:induction false} CurveLength(cfg: Config, bars: seq<Bar>, signals: seq<bool>)
    requires |signals| == |bars| && Simulated(cfg, bars, signals).Some?
    ensures |Simulated(cfg, bars, signals).value.curve| == |bars| + 1
  {
    if bars != [] { CurveLength(cfg, bars[..|bars| - 1], signals[..|bars| - 1]); }
  }

  /** Each trade is held for the configured number of bars and starts only after the one before it has ended; the open
      position starts after every closed one. */
  ghost predicate InOrder(cfg: Config, s: State, n: nat) {
    && (forall j :: 0 <= j < |s.trades| ==> s.trades[j].exit == s.trades[j].entry + cfg.hold && s.trades[j].exit < n)
    && (forall j, k :: 0 <= j < k < |s.trades| ==> s.trades[j].exit < s.trades[k].entry)
    && (s.open.Some? ==>
          && s.open.value.entry < n && s.open.value.exitAt == s.open.value.entry + cfg.hold && n <= s.open.value.exitAt
          && s.open.value.before == s.capital
          && forall j :: 0 <= j < |s.trades| ==> s.trades[j].exit < s.open.value.entry)
  }

  lemma {:induction false} TradesInOrder(cfg: Config, bars: seq<Bar>, signals: seq<bool>)
    requires |signals| == |bars| && Simulated(cfg, bars, signals).Some?
    ensures cfg.hold > 0 ==> InOrder(cfg, Simulated(cfg, bars, signals).value, |bars|)
  {
    if bars != [] { TradesInOrder(cfg, bars[..|bars| - 1], signals[..|bars| - 1]); }
  }

  function NetOf(trades: seq<Trade>): real {
    if trades == [] then 0.0 else NetOf(trades[..|trades| - 1]) + trades[|trades| - 1].net
  }

  /** Realised capital is the initial capital plus the net results of the closed trades. */
  lemma {:induction false} CapitalIsConserved(cfg: Config, bars: seq<Bar>, signals: seq<bool>)
    requires |signals| == |bars| && Simulated(cfg, bars, signals).Some? && cfg.hold > 0
    ensures var s := Simulated(cfg, bars, signals).value;
            s.capital == cfg.capital + NetOf(s.trades)
  {
    if bars != [] {
      var n := |bars| - 1;
      CapitalIsConserved(cfg, bars[..n], signals[..n]);
      TradesInOrder(cfg, bars[..n], signals[..n]);
      var before, after := Simulated(cfg, bars[..n], signals[..n]).value, Simulated(cfg, bars, signals).value;
      if after.trades != before.trades { assert after.trades[..|after.trades| - 1] == before.trades; }
    }
  }
}
