/**
 * The backtest of `calculate_win_rate` (app.py): every breakout bar `i` is
 * traded by buying at the next bar's open and selling at the close of bar
 * `i + hold_days`; the function reports the share of winning trades and how
 * many trades could be made.
 */
module Backtest {
  import opened Wrappers
  import opened Rounding
  import opened Breakout

  /** A trade from signal bar `i` has its exit bar inside a series of `n` bars. */
  predicate Realizable(n: nat, i: nat, holdDays: nat) {
    i + holdDays < n
  }

  /** The trade sells higher than it bought; a tie is a loss. */
  predicate IsWin(bars: seq<Bar>, i: nat, holdDays: nat)
    requires holdDays >= 1 && Realizable(|bars|, i, holdDays)
  {
    bars[i + holdDays].close > bars[i + 1].open
  }

  /** The number of signal indices whose trade is realizable. */
  function ValidCount(n: nat, sigIndices: seq<nat>, holdDays: nat): nat {
    if sigIndices == [] then 0
    else
      var last := sigIndices[|sigIndices| - 1];
      ValidCount(n, sigIndices[..|sigIndices| - 1], holdDays)
        + (if Realizable(n, last, holdDays) then 1 else 0)
  }

  /** The number of signal indices whose trade is realizable and a win. */
  function WinCount(bars: seq<Bar>, sigIndices: seq<nat>, holdDays: nat): nat
    requires holdDays >= 1
  {
    if sigIndices == [] then 0
    else
      var last := sigIndices[|sigIndices| - 1];
      WinCount(bars, sigIndices[..|sigIndices| - 1], holdDays)
        + (if Realizable(|bars|, last, holdDays) && IsWin(bars, last, holdDays) then 1 else 0)
  }

  /**
   * `round(wins / valid_signals * 100, 1) if valid_signals > 0 else 0`: a
   * percentage with one decimal, 0 when there are no trades, and otherwise
   * the multiple of 0.1 nearest to the exact ratio (an exact tie going to an
   * even last digit).
   */
  function WinRate(wins: nat, validSignals: nat): (rate: real)
    ensures validSignals == 0 ==> rate == 0.0
    ensures (rate * 10.0).Floor as real == rate * 10.0
    ensures 0 < validSignals ==> Abs(rate - wins as real / validSignals as real * 100.0) <= 0.05
    ensures 0 < validSignals && Abs(rate - wins as real / validSignals as real * 100.0) == 0.05 ==>
      (rate * 10.0).Floor % 2 == 0
  {
    if validSignals > 0 then Round1(wins as real / validSignals as real * 100.0) else 0.0
  }

  /**
   * With no more wins than trades the rate is a percentage in [0, 100]:
   * exactly 0 with no wins and exactly 100 when every trade won.
   */
  lemma WinRateBounds(wins: nat, validSignals: nat)
    requires wins <= validSignals
    ensures 0.0 <= WinRate(wins, validSignals) <= 100.0
    ensures wins == 0 ==> WinRate(wins, validSignals) == 0.0
    ensures 0 < validSignals && wins == validSignals ==> WinRate(wins, validSignals) == 100.0
  {
    if validSignals > 0 {
      var x := wins as real / validSignals as real * 100.0;
      RatioBounds(wins, validSignals);
      Round1KeepsGridBound(x, 0);
      Round1KeepsGridBound(x, 1000);
    }
  }

  lemma RatioBounds(wins: nat, validSignals: nat)
    requires 0 < validSignals && wins <= validSignals
    ensures 0.0 <= wins as real / validSignals as real * 100.0 <= 100.0
    ensures wins == 0 ==> wins as real / validSignals as real * 100.0 == 0.0
    ensures wins == validSignals ==> wins as real / validSignals as real * 100.0 == 100.0
  {
    var w, v := wins as real, validSignals as real;
    var q := w / v;
    assert q * v == w;
    assert (1.0 - q) * v == v - w;
    NonNegativeFactor(1.0 - q, v);
    NonNegativeFactor(q, v);
    assert 0.0 <= q <= 1.0;
    if wins == 0 {
      assert (-q) * v == 0.0;
      NonNegativeFactor(-q, v);
    }
    if wins == validSignals {
      assert (q - 1.0) * v == 0.0;
      NonNegativeFactor(q - 1.0, v);
    }
  }

  lemma NonNegativeFactor(x: real, s: real)
    requires s > 0.0 && x * s >= 0.0
    ensures x >= 0.0
  {
  }

  /** Series shorter than this are not evaluated at all. */
  const MinBars: nat := 20

  /** What `calculate_win_rate(df, hold_days)` returns for the bars of `df`. */
  function BacktestResult(bars: seq<Bar>, holdDays: nat): (real, nat)
    requires holdDays >= 1
  {
    if |bars| < MinBars then (0.0, 0)
    else
      var sigIndices := SignalIndices(bars);
      if |sigIndices| == 0 then (0.0, 0)
      else
        var wins := WinCount(bars, sigIndices, holdDays);
        var validSignals := ValidCount(|bars|, sigIndices, holdDays);
        (WinRate(wins, validSignals), validSignals)
  }

  /**
   * The trade loop of `calculate_win_rate`: for each signal index whose exit
   * bar exists, count the trade and count it as a win when the exit close
   * beats the next bar's open. Signals too close to the end are skipped.
   */
  method TallyTrades(bars: seq<Bar>, sigIndices: seq<nat>, holdDays: nat)
    returns (wins: nat, validSignals: nat)
    requires holdDays >= 1
    ensures wins == WinCount(bars, sigIndices, holdDays)
    ensures validSignals == ValidCount(|bars|, sigIndices, holdDays)
    ensures wins <= validSignals <= |sigIndices|
  {
    wins, validSignals := 0, 0;
    for k := 0 to |sigIndices|
      invariant wins == WinCount(bars, sigIndices[..k], holdDays)
      invariant validSignals == ValidCount(|bars|, sigIndices[..k], holdDays)
      invariant wins <= validSignals <= k
    {
      assert sigIndices[..k + 1][..k] == sigIndices[..k];
      var idx := sigIndices[k];
      if idx + holdDays < |bars| {
        var buyPrice := bars[idx + 1].open;
        var sellPrice := bars[idx + holdDays].close;
        if sellPrice > buyPrice {
          wins := wins + 1;
        }
        validSignals := validSignals + 1;
      }
    }
    assert sigIndices[..|sigIndices|] == sigIndices;
  }

  /** The daily-bar DataFrame handed to `calculate_win_rate`. */
  class PriceFrame {
    /** The `open`, `close` and `Volume` columns, one bar per row. */
    var bars: seq<Bar>
    /** The `Signal` column, absent until `calculate_win_rate` writes it. */
    var signal: Option<seq<bool>>

    constructor (bars: seq<Bar>)
      ensures this.bars == bars && signal == None
    {
      this.bars := bars;
      signal := None;
    }
  }

  /**
   * `calculate_win_rate(df, days_hold)`. A series shorter than 20 bars is left
   * untouched and yields `(0, 0)`; otherwise the `Signal` column is written
   * into `df` (its only change) and the signals are backtested.
   */
  method CalculateWinRate(df: PriceFrame, holdDays: nat) returns (winRate: real, count: nat)
    requires holdDays >= 1
    modifies df`signal
    ensures df.bars == old(df.bars)
    ensures df.signal == if |df.bars| < MinBars then old(df.signal) else Some(SignalColumn(df.bars))
    ensures (winRate, count) == BacktestResult(df.bars, holdDays)
  {
    if |df.bars| < MinBars {
      return 0.0, 0;
    }
    df.signal := Some(SignalColumn(df.bars));
    var sigIndices := Positions(df.signal.value);
    if |sigIndices| == 0 {
      return 0.0, 0;
    }
    var wins, validSignals := TallyTrades(df.bars, sigIndices, holdDays);
    winRate := WinRate(wins, validSignals);
    count := validSignals;
  }

  lemma {:induction false} WinsAtMostValid(bars: seq<Bar>, sigIndices: seq<nat>, holdDays: nat)
    requires holdDays >= 1
    ensures WinCount(bars, sigIndices, holdDays) <= ValidCount(|bars|, sigIndices, holdDays)
  {
    if sigIndices != [] {
      WinsAtMostValid(bars, sigIndices[..|sigIndices| - 1], holdDays);
    }
  }

  lemma {:induction false} ValidAtMostSignals(n: nat, sigIndices: seq<nat>, holdDays: nat)
    ensures ValidCount(n, sigIndices, holdDays) <= |sigIndices|
  {
    if sigIndices != [] {
      ValidAtMostSignals(n, sigIndices[..|sigIndices| - 1], holdDays);
    }
  }

  /**
   * The result is `(0, 0)` for a series under 20 bars or without signals; the win rate is a
   * percentage in [0, 100] and 0 whenever no trade was counted; the count
   * never exceeds the number of signals.
   */
  lemma ResultBounds(bars: seq<Bar>, holdDays: nat)
    requires holdDays >= 1
    ensures |bars| < MinBars ==> BacktestResult(bars, holdDays) == (0.0, 0)
    ensures |SignalIndices(bars)| == 0 ==> BacktestResult(bars, holdDays) == (0.0, 0)
    ensures 0.0 <= BacktestResult(bars, holdDays).0 <= 100.0
    ensures BacktestResult(bars, holdDays).1 == 0 ==> BacktestResult(bars, holdDays).0 == 0.0
    ensures BacktestResult(bars, holdDays).1 <= |SignalIndices(bars)|
  {
    if |bars| >= MinBars {
      var sigIndices := SignalIndices(bars);
      WinsAtMostValid(bars, sigIndices, holdDays);
      ValidAtMostSignals(|bars|, sigIndices, holdDays);
      WinRateBounds(WinCount(bars, sigIndices, holdDays), ValidCount(|bars|, sigIndices, holdDays));
    }
  }

  lemma {:induction false} AllRealizable(n: nat, sigIndices: seq<nat>, holdDays: nat)
    requires forall k :: 0 <= k < |sigIndices| ==> Realizable(n, sigIndices[k], holdDays)
    ensures ValidCount(n, sigIndices, holdDays) == |sigIndices|
  {
    if sigIndices != [] {
      AllRealizable(n, sigIndices[..|sigIndices| - 1], holdDays);
    }
  }

  lemma {:induction false} NoneRealizable(n: nat, sigIndices: seq<nat>, holdDays: nat)
    requires forall k :: 0 <= k < |sigIndices| ==> !Realizable(n, sigIndices[k], holdDays)
    ensures ValidCount(n, sigIndices, holdDays) == 0
  {
    if sigIndices != [] {
      NoneRealizable(n, sigIndices[..|sigIndices| - 1], holdDays);
    }
  }

  /**
   * Among the true rows of a column, those whose trade fits in
   * `lim + holdDays` bars are exactly the true rows among the first `lim`.
   */
  lemma {:induction false} ValidCountOfPositions(col: seq<bool>, lim: nat, holdDays: nat)
    requires lim <= |col|
    ensures ValidCount(lim + holdDays, Positions(col), holdDays) == |Positions(col[..lim])|
    decreases |col|
  {
    var n := lim + holdDays;
    if |col| == lim {
      assert col[..lim] == col;
      AllRealizable(n, Positions(col), holdDays);
    } else {
      var init := col[..|col| - 1];
      assert init[..lim] == col[..lim];
      ValidCountOfPositions(init, lim, holdDays);
      ValidCountIgnoresLastRow(col, n, holdDays);
    }
  }

  /** The last row of a column is too late to trade once `n <= |col| - 1 + holdDays`. */
  lemma ValidCountIgnoresLastRow(col: seq<bool>, n: nat, holdDays: nat)
    requires 0 < |col| && n <= |col| - 1 + holdDays
    ensures ValidCount(n, Positions(col), holdDays) == ValidCount(n, Positions(col[..|col| - 1]), holdDays)
  {
    var p, q := Positions(col), Positions(col[..|col| - 1]);
    if col[|col| - 1] {
      assert p == q + [|col| - 1];
      assert p[..|p| - 1] == q;
    } else {
      assert p == q;
    }
  }

  /**
   * The returned count is the number of signals whose exit bar lies inside
   * the series: the signals among the first `n - holdDays` bars. Later
   * signals are skipped, and a series under 20 bars counts none.
   */
  lemma CountIsRealizableSignals(bars: seq<Bar>, holdDays: nat)
    requires holdDays >= 1
    ensures BacktestResult(bars, holdDays).1 ==
      if |bars| < MinBars || |bars| < holdDays then 0
      else |SignalIndices(bars[..|bars| - holdDays])|
  {
    if |bars| >= MinBars {
      var col := SignalColumn(bars);
      ResultCount(bars, holdDays);
      if |bars| < holdDays {
        NoneRealizable(|bars|, Positions(col), holdDays);
      } else {
        var lim := |bars| - holdDays;
        ValidCountOfPositions(col, lim, holdDays);
        SignalColumnOfPrefix(bars, lim);
        assert SignalIndices(bars[..lim]) == Positions(col[..lim]);
      }
    }
  }

  /** From 20 bars on, the count is the realizable part of the signal indices. */
  lemma ResultCount(bars: seq<Bar>, holdDays: nat)
    requires holdDays >= 1 && |bars| >= MinBars
    ensures BacktestResult(bars, holdDays).1 == ValidCount(|bars|, Positions(SignalColumn(bars)), holdDays)
  {
    var sigIndices := SignalIndices(bars);
    if |sigIndices| == 0 {
      assert sigIndices == [];
    }
  }

  /**
   * One realizable signal gives a count of 1 and a win rate of 100 when the
   * exit close beats the entry open, 0 otherwise (a tie included).
   */
  lemma SingleSignalOutcome(bars: seq<Bar>, holdDays: nat, i: nat)
    requires holdDays >= 1 && |bars| >= MinBars
    requires SignalIndices(bars) == [i] && i + holdDays < |bars|
    ensures BacktestResult(bars, holdDays) ==
      (if bars[i + holdDays].close > bars[i + 1].open then 100.0 else 0.0, 1)
  {
    var wins := WinCount(bars, [i], holdDays);
    var validSignals := ValidCount(|bars|, [i], holdDays);
    assert [i][..0] == [];
    assert ValidCount(|bars|, [], holdDays) == 0;
    assert WinCount(bars, [], holdDays) == 0;
    assert validSignals == 1;
    assert wins == if IsWin(bars, i, holdDays) then 1 else 0;
    assert BacktestResult(bars, holdDays) == (WinRate(wins, validSignals), validSignals);
    WinRateBounds(wins, validSignals);
  }
}
