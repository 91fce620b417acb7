/**
 * The indicator helpers of the trading engine (`TechnicalIndicators` in
 * server.js): the simple moving average and the relative strength index over
 * a chronological price sequence, oldest sample first.
 */
module Indicators {

  /** A quoted price. Paper quotes move a positive base price by less than 2%,
      live quotes come from the broker and the fallback quote is 100, so every
      price the engine sees is strictly positive. */
  type Price = x: real | x > 0.0 witness 1.0

  /** The sum `s.reduce((a, b) => a + b, 0)`, folded from the left. */
  function Sum(s: seq<real>): real
  {
    if s == [] then 0.0 else Sum(s[..|s| - 1]) + s[|s| - 1]
  }

  /** A sum of non-negative samples is non-negative; a sum of one or more
      positive samples is positive. */
  lemma {:induction false} SumSign(s: seq<real>)
    ensures (forall i :: 0 <= i < |s| ==> s[i] >= 0.0) ==> Sum(s) >= 0.0
    ensures (forall i :: 0 <= i < |s| ==> s[i] > 0.0) && |s| > 0 ==> Sum(s) > 0.0
  {
    if s != [] {
      var init := s[..|s| - 1];
      SumSign(init);
      assert forall i :: 0 <= i < |init| ==> init[i] == s[i];
    }
  }

  lemma MulPositive(x: real, y: real)
    requires x > 0.0 && y > 0.0
    ensures x * y > 0.0
  {
  }

  /** Comparing a quotient with a constant is comparing the dividend with the
      constant times the (positive) divisor. */
  lemma DivCompare(a: real, b: real, c: real)
    requires b > 0.0
    ensures a / b > c <==> a > c * b
    ensures a / b < c <==> a < c * b
  {
    var q := a / b;
    assert q * b == a;
    assert a - c * b == (q - c) * b;
    if q > c { MulPositive(q - c, b); }
    if q < c { MulPositive(c - q, b); }
  }

  /** Number of windows of `period` samples in a sequence of `n` samples. */
  function WindowCount(n: nat, period: nat): nat
  {
    if n >= period then n - period + 1 else 0
  }

  /** The moving averages of `prices` over `period` samples: the j-th value
      averages the window `prices[j .. j + period)`. */
  function SmaValues(prices: seq<real>, period: nat): seq<real>
    requires period > 0
  {
    var n := WindowCount(|prices|, period);
    seq(n, j requires 0 <= j < n => Sum(prices[j..j + period]) / period as real)
  }

  /** `TechnicalIndicators.sma`: one average per window, pushed in order. */
  method Sma(prices: seq<real>, period: nat) returns (result: seq<real>)
    requires period > 0
    ensures |result| == WindowCount(|prices|, period)
    ensures forall j :: 0 <= j < |result| ==> result[j] == Sum(prices[j..j + period]) / period as real
    ensures result == SmaValues(prices, period)
  {
    result := [];
    var i := period - 1;
    while i < |prices|
      invariant period - 1 <= i <= if |prices| >= period - 1 then |prices| else period - 1
      invariant |result| == i - (period - 1)
      invariant forall j :: 0 <= j < |result| ==> result[j] == Sum(prices[j..j + period]) / period as real
    {
      var sum := Sum(prices[i - period + 1..i + 1]);
      result := result + [sum / period as real];
      i := i + 1;
    }
  }

  /** The gain of step i (from `prices[i]` to `prices[i + 1]`): the rise, or 0. */
  function Gain(prices: seq<real>, i: nat): real
    requires i + 1 < |prices|
  {
    var change := prices[i + 1] - prices[i];
    if change > 0.0 then change else 0.0
  }

  /** The loss of step i: the fall, as a non-negative number, or 0. */
  function Loss(prices: seq<real>, i: nat): real
    requires i + 1 < |prices|
  {
    var change := prices[i + 1] - prices[i];
    if change < 0.0 then -change else 0.0
  }

  function StepCount(prices: seq<real>): nat
  {
    if |prices| > 0 then |prices| - 1 else 0
  }

  function Gains(prices: seq<real>): seq<real>
  {
    seq(StepCount(prices), i requires 0 <= i < StepCount(prices) => Gain(prices, i))
  }

  function Losses(prices: seq<real>): seq<real>
  {
    seq(StepCount(prices), i requires 0 <= i < StepCount(prices) => Loss(prices, i))
  }

  /** `xs.slice(0, period).reduce(+) / period`: the sum of at most the first
      `period` entries, always divided by `period`. */
  function Average(xs: seq<real>, period: nat): real
    requires period > 0
  {
    Sum(xs[..if period <= |xs| then period else |xs|]) / period as real
  }

  function AvgGain(prices: seq<real>, period: nat): real
    requires period > 0
  {
    Average(Gains(prices), period)
  }

  function AvgLoss(prices: seq<real>, period: nat): real
    requires period > 0
  {
    Average(Losses(prices), period)
  }

  /** The value `100 - 100 / (1 + avgGain / avgLoss)` that `rsi` returns when
      the average loss is not zero. */
  function RsiValue(prices: seq<real>, period: nat): real
    requires period > 0 && AvgLoss(prices, period) > 0.0
  {
    var rs := AvgGain(prices, period) / AvgLoss(prices, period);
    RatioNonNegative(prices, period);
    100.0 - 100.0 / (1.0 + rs)
  }

  lemma AverageNonNegative(xs: seq<real>, period: nat)
    requires period > 0
    requires forall i :: 0 <= i < |xs| ==> xs[i] >= 0.0
    ensures Average(xs, period) >= 0.0
  {
    var k := if period <= |xs| then period else |xs|;
    assert forall i :: 0 <= i < k ==> xs[..k][i] >= 0.0;
    SumSign(xs[..k]);
  }

  /** The relative strength `avgGain / avgLoss` is never negative. */
  lemma RatioNonNegative(prices: seq<real>, period: nat)
    requires period > 0 && AvgLoss(prices, period) > 0.0
    ensures AvgGain(prices, period) / AvgLoss(prices, period) >= 0.0
  {
    AverageNonNegative(Gains(prices), period);
    var g, l := AvgGain(prices, period), AvgLoss(prices, period);
    if g > 0.0 {
      MulPositive(g, 1.0 / l);
    }
  }

  /** The RSI lies in [0, 100), and it is 0 exactly when no step of the
      window rose. */
  lemma RsiInRange(prices: seq<real>, period: nat)
    requires period > 0 && AvgLoss(prices, period) > 0.0
    ensures 0.0 <= RsiValue(prices, period) < 100.0
    ensures RsiValue(prices, period) == 0.0 <==> AvgGain(prices, period) == 0.0
  {
    RatioNonNegative(prices, period);
    var g, l := AvgGain(prices, period), AvgLoss(prices, period);
    var rs := g / l;
    assert rs == 0.0 <==> g == 0.0;
    var d := 1.0 + rs;
    assert 100.0 / d <= 100.0 by {
      assert 100.0 / d * d == 100.0;
    }
    assert 100.0 / d > 0.0;
    assert 100.0 / d == 100.0 <==> rs == 0.0 by {
      assert 100.0 / d * d == 100.0;
    }
  }

  /** Per-step gains and losses collected one by one are `Gains` and
      `Losses`. */
  lemma StepsCollected(prices: seq<real>, gains: seq<real>, losses: seq<real>)
    requires |gains| == |losses| == StepCount(prices)
    requires forall k :: 0 <= k < |gains| ==> gains[k] == Gain(prices, k) && losses[k] == Loss(prices, k)
    ensures gains == Gains(prices) && losses == Losses(prices)
  {
  }

  /** `TechnicalIndicators.rsi`: collects the per-step gains and losses in a
      loop, averages the first `period` of each and forms the index. */
  method Rsi(prices: seq<real>, period: nat) returns (r: real)
    requires period > 0 && AvgLoss(prices, period) > 0.0
    ensures r == RsiValue(prices, period)
    ensures 0.0 <= r < 100.0
  {
    var gains: seq<real> := [];
    var losses: seq<real> := [];
    var i := 1;
    while i < |prices|
      invariant 1 <= i
      invariant |prices| > 0 ==> i <= |prices|
      invariant |gains| == |losses| == i - 1
      invariant forall k :: 0 <= k < i - 1 ==> gains[k] == Gain(prices, k) && losses[k] == Loss(prices, k)
    {
      var change := prices[i] - prices[i - 1];
      gains := gains + [if change > 0.0 then change else 0.0];
      losses := losses + [if change < 0.0 then -change else 0.0];
      i := i + 1;
    }
    StepsCollected(prices, gains, losses);
    var avgGain := Average(gains, period);
    var avgLoss := Average(losses, period);
    assert avgGain == AvgGain(prices, period) && avgLoss == AvgLoss(prices, period);
    RatioNonNegative(prices, period);
    var rs := avgGain / avgLoss;
    r := 100.0 - 100.0 / (1.0 + rs);
    RsiInRange(prices, period);
  }
}
