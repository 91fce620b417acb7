/**
 * The strategy evaluator (`TradingStrategies` and `getTradeSignal` in
 * server.js): threshold rules that map a price history to a trade signal.
 * JavaScript semantics that matter are kept: reading past the end of an array
 * gives `undefined`, and every relational comparison with `undefined` is false.
 */
module Strategies {
  import opened Wrappers
  import opened Indicators

  datatype Signal = Buy | Sell | Hold

  /** `s[i]` in JavaScript: `undefined` outside the array. */
  function At(s: seq<real>, i: int): (r: Option<real>)
  {
    if 0 <= i < |s| then Some(s[i]) else None
  }

  /** Relational operators on possibly undefined numbers: `undefined` becomes
      NaN, and NaN compares false with everything. */
  predicate Lt(a: Option<real>, b: Option<real>) { a.Some? && b.Some? && a.value < b.value }
  predicate Le(a: Option<real>, b: Option<real>) { a.Some? && b.Some? && a.value <= b.value }
  predicate Gt(a: Option<real>, b: Option<real>) { a.Some? && b.Some? && a.value > b.value }
  predicate Ge(a: Option<real>, b: Option<real>) { a.Some? && b.Some? && a.value >= b.value }

  /** Mean of the `period` samples that end just before index `end`. */
  function WindowMean(prices: seq<real>, end: nat, period: nat): real
    requires 0 < period <= end <= |prices|
  {
    Sum(prices[end - period..end]) / period as real
  }

  /** `smacrossover`: compares the last two values of the 20- and 50-sample
      moving averages. */
  function SmaCrossover(prices: seq<Price>): Signal
  {
    if |prices| < 50 then Hold
    else
      var sma20 := SmaValues(prices, 20);
      var sma50 := SmaValues(prices, 50);
      var current20 := At(sma20, |sma20| - 1);
      var current50 := At(sma50, |sma50| - 1);
      var prev20 := At(sma20, |sma20| - 2);
      var prev50 := At(sma50, |sma50| - 2);
      if Le(prev20, prev50) && Gt(current20, current50) then Buy
      else if Ge(prev20, prev50) && Lt(current20, current50) then Sell
      else Hold
  }

  /** `rsiOversold`: `rsi` returns a single number, and `rsi[rsi.length - 1]`
      indexes that number, which yields `undefined` whatever the number is
      (NaN and Infinity included). The thresholds 30 and 70 therefore never
      compare true. */
  function RsiOversold(prices: seq<Price>): Signal
  {
    if |prices| < 20 then Hold
    else
      var currentRsi: Option<real> := None;
      if Lt(currentRsi, Some(30.0)) then Buy
      else if Gt(currentRsi, Some(70.0)) then Sell
      else Hold
  }

  /** `momentum`: relative change over the last 10 samples. */
  function Momentum(prices: seq<Price>): Signal
  {
    if |prices| < 10 then Hold
    else
      var recent := prices[|prices| - 10..];
      var momentum := (recent[9] as real - recent[0] as real) / recent[0] as real;
      if momentum > 0.02 then Buy
      else if momentum < -0.02 then Sell
      else Hold
  }

  /** `meanReversion`: relative deviation of the last price from the last
      20-sample moving average. */
  function MeanReversion(prices: seq<Price>): Signal
  {
    if |prices| < 20 then Hold
    else
      var sma20 := SmaValues(prices, 20);
      var currentPrice := prices[|prices| - 1];
      assert sma20[|sma20| - 1] > 0.0 by {
        var w := prices[|prices| - 20..|prices|];
        assert forall i :: 0 <= i < |w| ==> w[i] > 0.0;
        SumSign(w);
        assert sma20[|sma20| - 1] == Sum(w) / 20.0;
      }
      var currentSma := sma20[|sma20| - 1];
      var deviation := (currentPrice - currentSma) / currentSma;
      if deviation < -0.03 then Buy
      else if deviation > 0.03 then Sell
      else Hold
  }

  /** `getTradeSignal`: the strategy map has exactly four keys; any other
      identifier finds no strategy and holds. */
  function TradeSignal(strategy: string, prices: seq<Price>): Signal
  {
    if strategy == "sma_crossover" then SmaCrossover(prices)
    else if strategy == "rsi_oversold" then RsiOversold(prices)
    else if strategy == "momentum" then Momentum(prices)
    else if strategy == "mean_reversion" then MeanReversion(prices)
    else Hold
  }

  /** The least history each strategy needs before it can signal. */
  function MinHistory(strategy: string): nat
  {
    if strategy == "sma_crossover" then 50
    else if strategy == "rsi_oversold" || strategy == "mean_reversion" then 20
    else if strategy == "momentum" then 10
    else 0
  }

  predicate Known(strategy: string)
  {
    strategy in {"sma_crossover", "rsi_oversold", "momentum", "mean_reversion"}
  }

  lemma SmaValuesLast(prices: seq<real>, period: nat, back: nat)
    requires 0 < period && back < WindowCount(|prices|, period)
    ensures var sma := SmaValues(prices, period);
      At(sma, |sma| - 1 - back) == Some(WindowMean(prices, |prices| - back, period))
  {
  }

  /** The four averages the crossover compares: the current and previous
      20- and 50-sample means. The previous 50-sample mean exists only from
      51 samples on. */
  lemma CrossoverInputs(prices: seq<real>)
    requires |prices| >= 50
    ensures var n := |prices|; var sma20, sma50 := SmaValues(prices, 20), SmaValues(prices, 50);
      && At(sma20, |sma20| - 1) == Some(WindowMean(prices, n, 20))
      && At(sma20, |sma20| - 2) == Some(WindowMean(prices, n - 1, 20))
      && At(sma50, |sma50| - 1) == Some(WindowMean(prices, n, 50))
      && At(sma50, |sma50| - 2) == (if n > 50 then Some(WindowMean(prices, n - 1, 50)) else None)
  {
    SmaValuesLast(prices, 20, 0);
    SmaValuesLast(prices, 20, 1);
    SmaValuesLast(prices, 50, 0);
    if |prices| > 50 {
      SmaValuesLast(prices, 50, 1);
    }
  }

  /** The crossover rule in terms of the trailing windows: buy exactly when the
      20-sample mean crosses above the 50-sample mean between the last two
      samples, sell exactly on the mirror cross. At exactly 50 samples there is
      no previous 50-sample mean, so the rule holds. */
  lemma SmaCrossoverRule(prices: seq<Price>)
    ensures var n := |prices|;
      SmaCrossover(prices) == Buy <==>
        n > 50 && WindowMean(prices, n - 1, 20) <= WindowMean(prices, n - 1, 50)
               && WindowMean(prices, n, 20) > WindowMean(prices, n, 50)
    ensures var n := |prices|;
      SmaCrossover(prices) == Sell <==>
        n > 50 && WindowMean(prices, n - 1, 20) >= WindowMean(prices, n - 1, 50)
               && WindowMean(prices, n, 20) < WindowMean(prices, n, 50)
  {
    if |prices| >= 50 {
      CrossoverInputs(prices);
    }
  }

  /** Momentum buys exactly when the last price exceeds the price ten samples
      back by more than 2%, and sells exactly when it is more than 2% below. */
  lemma MomentumRule(prices: seq<Price>)
    ensures Momentum(prices) == Buy <==>
      |prices| >= 10 && prices[|prices| - 1] > 1.02 * prices[|prices| - 10]
    ensures Momentum(prices) == Sell <==>
      |prices| >= 10 && prices[|prices| - 1] < 0.98 * prices[|prices| - 10]
  {
    if |prices| >= 10 {
      var first, last := prices[|prices| - 10] as real, prices[|prices| - 1] as real;
      DivCompare(last - first, first, 0.02);
      DivCompare(last - first, first, -0.02);
    }
  }

  /** Mean reversion buys exactly when the last price is more than 3% below
      the 20-sample mean and sells exactly when it is more than 3% above it. */
  lemma MeanReversionRule(prices: seq<Price>)
    ensures MeanReversion(prices) == Buy <==>
      |prices| >= 20 && prices[|prices| - 1] < 0.97 * WindowMean(prices, |prices|, 20)
    ensures MeanReversion(prices) == Sell <==>
      |prices| >= 20 && prices[|prices| - 1] > 1.03 * WindowMean(prices, |prices|, 20)
  {
    if |prices| >= 20 {
      var n := |prices|;
      SmaValuesLast(prices, 20, 0);
      var w := prices[n - 20..n];
      assert forall i :: 0 <= i < |w| ==> w[i] > 0.0;
      var mean := WindowMean(prices, n, 20);
      SumSign(w);
      assert mean == Sum(w) / 20.0;
      assert mean > 0.0;
      DivCompare(prices[n - 1] as real - mean, mean, -0.03);
      DivCompare(prices[n - 1] as real - mean, mean, 0.03);
    }
  }

  /** `rsiOversold` never trades: the scalar RSI is indexed like an array,
      the read is `undefined`, and neither threshold comparison holds. */
  lemma RsiOversoldHolds(prices: seq<Price>)
    ensures RsiOversold(prices) == Hold
  {
  }

  /** Only three strategy identifiers can ever produce a buy or a sell, and
      only once the history reaches that strategy's minimum length: unknown
      identifiers (`ema_crossover`, `bollinger_bands`, ...) and `rsi_oversold`
      always hold. */
  lemma TradeSignalActsOnlyWhenKnown(strategy: string, prices: seq<Price>)
    ensures TradeSignal(strategy, prices) != Hold ==>
      strategy in {"sma_crossover", "momentum", "mean_reversion"} && |prices| >= MinHistory(strategy)
    ensures !Known(strategy) ==> TradeSignal(strategy, prices) == Hold
    ensures strategy == "rsi_oversold" ==> TradeSignal(strategy, prices) == Hold
    ensures |prices| < MinHistory(strategy) ==> TradeSignal(strategy, prices) == Hold
  {
  }
}
