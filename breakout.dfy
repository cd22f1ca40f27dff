/**
 * The volume-price breakout rule of `calculate_win_rate` (app.py): a bar
 * signals when its close rises more than 3% over the previous close and its
 * volume is more than twice the mean volume of the five bars before it.
 */
module Breakout {

  /** One daily bar: the columns `open`, `close` and `Volume` of the frame. */
  datatype Bar = Bar(open: real, close: real, volume: real)

  /** `pct_change()` must exceed this fraction. */
  const ReturnThreshold: real := 0.03
  /** Volume must exceed this multiple of the trailing mean. */
  const VolumeMultiple: real := 2.0
  /** Width of the trailing volume window (`rolling(5)`). */
  const VolumeWindow: nat := 5

  /**
   * `close[i] / close[i-1] - 1 > 0.03`. For a non-zero previous close the
   * ratio is compared on exact reals, so an exact 3% rise fails the strict
   * test. Floating-point semantics are reproduced only for a zero previous
   * close: the ratio is then +inf when the close is positive (true), -inf
   * when it is negative and NaN when it is zero (both false).
   */
  predicate PctChangeAbove(prev: real, cur: real) {
    if prev != 0.0 then cur / prev - 1.0 > ReturnThreshold else cur > 0.0
  }

  function VolumeSum(bars: seq<Bar>): real {
    if bars == [] then 0.0 else VolumeSum(bars[..|bars| - 1]) + bars[|bars| - 1].volume
  }

  /**
   * `Volume.rolling(5).mean().shift(1)` at bar `i`: the mean volume of bars
   * `i-5 .. i-1`. Bar `i` itself is not in the window.
   */
  function TrailingVolumeMean(bars: seq<Bar>, i: nat): real
    requires VolumeWindow <= i <= |bars|
  {
    VolumeSum(bars[i - VolumeWindow..i]) / VolumeWindow as real
  }

  /**
   * The `Signal` column at bar `i`. `pct_change` is NaN at bar 0 and the
   * shifted rolling mean is NaN at bars 0..4; a comparison with NaN is false,
   * so those bars never signal.
   */
  predicate IsSignal(bars: seq<Bar>, i: nat)
    requires i < |bars|
  {
    && i >= VolumeWindow
    && PctChangeAbove(bars[i - 1].close, bars[i].close)
    && bars[i].volume > TrailingVolumeMean(bars, i) * VolumeMultiple
  }

  /** The whole `Signal` column written into the frame. */
  function SignalColumn(bars: seq<Bar>): (col: seq<bool>)
    ensures |col| == |bars|
    ensures forall i :: 0 <= i < |bars| ==> col[i] == IsSignal(bars, i)
  {
    seq(|bars|, i requires 0 <= i < |bars| => IsSignal(bars, i))
  }

  /**
   * The labels of the rows where a boolean column is true, in row order
   * (`df[df['Signal'] == True].index` on a default range index).
   */
  function Positions(col: seq<bool>): (r: seq<nat>)
    ensures |r| <= |col|
    ensures forall k :: 0 <= k < |r| ==> r[k] < |col| && col[r[k]]
    ensures forall i :: 0 <= i < |col| && col[i] ==> i in r
    ensures forall k, l :: 0 <= k < l < |r| ==> r[k] < r[l]
  {
    if col == [] then []
    else Positions(col[..|col| - 1]) + (if col[|col| - 1] then [|col| - 1] else [])
  }

  /**
   * The signal indices: strictly increasing, each a signalling bar, every
   * signalling bar among them, and none in the first five bars.
   */
  function SignalIndices(bars: seq<Bar>): (r: seq<nat>)
    ensures forall k :: 0 <= k < |r| ==> VolumeWindow <= r[k] < |bars| && IsSignal(bars, r[k])
    ensures forall i :: 0 <= i < |bars| && IsSignal(bars, i) ==> i in r
    ensures forall k, l :: 0 <= k < l < |r| ==> r[k] < r[l]
  {
    Positions(SignalColumn(bars))
  }

  /**
   * With a positive previous close the rule reads without division: the
   * close exceeds 1.03 times the previous close, and five times the volume
   * exceeds twice the volume of the five preceding bars.
   */
  lemma SignalRule(bars: seq<Bar>, i: nat)
    requires 1 <= i < |bars| && bars[i - 1].close > 0.0
    ensures IsSignal(bars, i) <==>
      && i >= VolumeWindow
      && bars[i].close > 1.03 * bars[i - 1].close
      && 5.0 * bars[i].volume > 2.0 * VolumeSum(bars[i - VolumeWindow..i])
  {
    RatioAbove(bars[i - 1].close, bars[i].close);
    if i >= VolumeWindow {
      assert TrailingVolumeMean(bars, i) == VolumeSum(bars[i - VolumeWindow..i]) / 5.0;
    }
  }

  lemma RatioAbove(prev: real, cur: real)
    requires prev > 0.0
    ensures PctChangeAbove(prev, cur) <==> cur > 1.03 * prev
  {
    var q := cur / prev;
    assert q * prev == cur;
    if q > 1.03 {
      MulPositive(q - 1.03, prev);
    } else {
      MulPositive(1.03 - q, prev);
    }
  }

  lemma MulPositive(a: real, b: real)
    requires a >= 0.0 && b > 0.0
    ensures a * b >= 0.0 && (a > 0.0 ==> a * b > 0.0)
  {
  }

  /** No bar before the sixth can signal. */
  lemma NoEarlySignal(bars: seq<Bar>, i: nat)
    requires i < |bars| && i < VolumeWindow
    ensures !IsSignal(bars, i)
  {
  }

  /** The rule at bar `i` looks only at bars `0..i`: later bars do not change it. */
  lemma SignalIsCausal(bars: seq<Bar>, m: nat, i: nat)
    requires i < m <= |bars|
    ensures IsSignal(bars[..m], i) == IsSignal(bars, i)
  {
    if i >= VolumeWindow {
      assert bars[..m][i - VolumeWindow..i] == bars[i - VolumeWindow..i];
    }
  }

  /** The signal column of a prefix is the prefix of the signal column. */
  lemma SignalColumnOfPrefix(bars: seq<Bar>, m: nat)
    requires m <= |bars|
    ensures SignalColumn(bars[..m]) == SignalColumn(bars)[..m]
  {
    forall i | 0 <= i < m
      ensures SignalColumn(bars[..m])[i] == SignalColumn(bars)[i]
    {
      SignalIsCausal(bars, m, i);
    }
  }
}
