/**
 * One user's trading bot (`UserTradingBot` in server.js): its configuration,
 * the start/stop flag, the per-symbol price histories and the ledger, and the
 * steps its trading loop takes. Quotes and broker answers are inputs: a
 * symbol step takes the quote, and `broker(n)` says whether the n-th order
 * submitted to a live broker goes through (paper orders always do).
 */
module Bot {
  import opened Indicators
  import opened Strategies
  import opened Ledger
  import opened History

  /** The parts of a user's configuration the engine reads. Missing or empty
      credentials are both the empty string. */
  datatype Config = Config(
    apiKey: string, secretKey: string, mode: string, strategy: string,
    symbols: seq<string>, tradeAmount: real, stopLoss: real, takeProfit: real,
    maxTrades: int)

  /** Whether the n-th order fills: orders go to the broker only in "live"
      mode; in any other mode they are simulated and always fill. */
  function Fills(mode: string, broker: nat -> bool): nat -> bool
  {
    (n: nat) => mode != "live" || broker(n)
  }

  /** The state a trading cycle works on: price histories and ledger. */
  datatype Engine = Engine(history: map<string, seq<Price>>, book: Book)

  predicate EngineValid(e: Engine)
  {
    (forall symbol :: symbol in e.history ==> |e.history[symbol]| <= Capacity) && Ledger.Valid(e.book)
  }

  /** A symbol's history, empty until its first quote. */
  function HistoryOf(history: map<string, seq<Price>>, symbol: string): seq<Price>
  {
    if symbol in history then history[symbol] else []
  }

  /** Acting on a signal: buy, sell, or nothing on hold. */
  function ActOn(b: Book, signal: Signal, symbol: string, price: Price, config: Config, fills: nat -> bool): Book
  {
    match signal
    case Buy => AfterBuy(b, symbol, price, config.tradeAmount, fills)
    case Sell => AfterSell(b, symbol, price, fills)
    case Hold => b
  }

  /** `processSymbol`: record the quote, act on the strategy's signal for the
      updated history, then run the stop-loss/take-profit check. */
  function SymbolStep(e: Engine, config: Config, symbol: string, price: Price, fills: nat -> bool): Engine
  {
    var prices := Appended(HistoryOf(e.history, symbol), price);
    var acted := ActOn(e.book, TradeSignal(config.strategy, prices), symbol, price, config, fills);
    Engine(e.history[symbol := prices], AfterCheck(acted, symbol, price, config.stopLoss, config.takeProfit, fills))
  }

  /** The symbols of one cycle, processed in order, one quote each. */
  function CycleSteps(e: Engine, config: Config, symbols: seq<string>, prices: seq<Price>, fills: nat -> bool): Engine
    requires |symbols| == |prices|
    decreases |symbols|
  {
    if symbols == [] then e
    else CycleSteps(SymbolStep(e, config, symbols[0], prices[0], fills), config, symbols[1..], prices[1..], fills)
  }

  /** `processTradingCycle`: skipped when the day's trade count has reached
      `maxTrades` (checked once, before the first symbol) or when the bot is
      not active; otherwise every configured symbol is processed. */
  function Cycle(e: Engine, config: Config, active: bool, prices: seq<Price>, fills: nat -> bool): Engine
    requires |prices| == |config.symbols|
  {
    if e.book.stats.dailyTrades >= config.maxTrades || !active then e
    else CycleSteps(e, config, config.symbols, prices, fills)
  }

  /** Acting on any signal keeps the ledger valid, leaves the other symbols'
      positions alone and counts at most one new trade. */
  lemma ActOnKeepsValid(b: Book, signal: Signal, symbol: string, price: Price, config: Config, fills: nat -> bool)
    requires Ledger.Valid(b)
    ensures var r := ActOn(b, signal, symbol, price, config, fills);
      && Ledger.Valid(r)
      && OtherSymbols(r.positions, symbol) == OtherSymbols(b.positions, symbol)
      && b.stats.totalTrades <= r.stats.totalTrades <= b.stats.totalTrades + 1
  {
    match signal
    case Buy => BuyOpensOnePosition(b, symbol, price, config.tradeAmount, fills);
    case Sell => SellClosesOldest(b, symbol, price, fills);
    case Hold =>
  }

  /** A symbol step keeps every history within 100 entries and the ledger
      valid; the symbol's history becomes the most recent 100 quotes ending
      with the new one, and neither the other symbols' histories nor their
      positions change. */
  lemma {:induction false} SymbolStepKeepsValid(e: Engine, config: Config, symbol: string, price: Price, fills: nat -> bool)
    requires EngineValid(e)
    ensures var r := SymbolStep(e, config, symbol, price, fills);
      && EngineValid(r)
      && r.history[symbol] == Recent(HistoryOf(e.history, symbol) + [price])
      && (forall s :: s != symbol ==> (s in r.history <==> s in e.history))
      && (forall s :: s in e.history && s != symbol ==> r.history[s] == e.history[s])
      && OtherSymbols(r.book.positions, symbol) == OtherSymbols(e.book.positions, symbol)
      && e.book.stats.totalTrades <= r.book.stats.totalTrades <= e.book.stats.totalTrades + 1
  {
    var h := HistoryOf(e.history, symbol);
    AppendedBounded(h, price);
    var prices := Appended(h, price);
    var signal := TradeSignal(config.strategy, prices);
    ActOnKeepsValid(e.book, signal, symbol, price, config, fills);
    var acted := ActOn(e.book, signal, symbol, price, config, fills);
    CheckRiskClosesAtMostTriggers(acted, SymbolPositions(acted.positions, symbol), symbol, price,
      config.stopLoss, config.takeProfit, fills);
    var r := SymbolStep(e, config, symbol, price, fills);
    assert r == Engine(e.history[symbol := prices], AfterCheck(acted, symbol, price, config.stopLoss, config.takeProfit, fills));
    forall s | s in r.history
      ensures |r.history[s]| <= Capacity
    {
      if s != symbol {
        assert r.history[s] == e.history[s];
      }
    }
  }

  /** A whole cycle keeps every history within 100 entries and the ledger
      valid, and it opens at most one position per processed symbol. */
  lemma {:induction false} CycleStepsKeepValid(e: Engine, config: Config, symbols: seq<string>, prices: seq<Price>, fills: nat -> bool)
    requires EngineValid(e) && |symbols| == |prices|
    ensures var r := CycleSteps(e, config, symbols, prices, fills);
      && EngineValid(r)
      && e.book.stats.totalTrades <= r.book.stats.totalTrades <= e.book.stats.totalTrades + |symbols|
    decreases |symbols|
  {
    if symbols != [] {
      SymbolStepKeepsValid(e, config, symbols[0], prices[0], fills);
      CycleStepsKeepValid(SymbolStep(e, config, symbols[0], prices[0], fills), config, symbols[1..], prices[1..], fills);
    }
  }

  /** The daily limit is consulted once per cycle, not before each buy: with
      a limit of one trade, a momentum cycle over two rising symbols opens two
      positions. */
  lemma CycleMayExceedDailyLimit()
    ensures
      var config := Config("key", "secret", "paper", "momentum", ["AAPL", "TSLA"], 1000.0, 50.0, 50.0, 1);
      var flat: seq<Price> := [100.0, 100.0, 100.0, 100.0, 100.0, 100.0, 100.0, 100.0, 100.0];
      var e := Engine(map["AAPL" := flat, "TSLA" := flat], EmptyBook);
      var r := Cycle(e, config, true, [110.0, 110.0], n => true);
      r.book.stats.dailyTrades == 2 > config.maxTrades
  {
    var config := Config("key", "secret", "paper", "momentum", ["AAPL", "TSLA"], 1000.0, 50.0, 50.0, 1);
    var flat: seq<Price> := [100.0, 100.0, 100.0, 100.0, 100.0, 100.0, 100.0, 100.0, 100.0];
    var e := Engine(map["AAPL" := flat, "TSLA" := flat], EmptyBook);
    var fills: nat -> bool := n => true;
    var rising := flat + [110.0];
    assert Appended(flat, 110.0 as Price) == rising;
    assert Momentum(rising) == Buy by {
      assert rising[|rising| - 10..] == rising;
    }
    assert Quantity(1000.0, 110.0) == 9;
    var one := Position("AAPL", 9, 110.0, "buy", 0);
    var b1 := AfterBuy(EmptyBook, "AAPL", 110.0, 1000.0, fills);
    assert b1.positions == [one] && b1.stats.dailyTrades == 1;
    assert SymbolPositions(b1.positions, "AAPL") == [one];
    QuietCheckChangesNothing(b1, [one], "AAPL", 110.0, 50.0, 50.0, fills);
    var e1 := SymbolStep(e, config, "AAPL", 110.0, fills);
    assert e1 == Engine(e.history["AAPL" := rising], b1);
    var two := Position("TSLA", 9, 110.0, "buy", 1);
    var b2 := AfterBuy(b1, "TSLA", 110.0, 1000.0, fills);
    assert b2.positions == [one, two] && b2.stats.dailyTrades == 2;
    assert SymbolPositions(b2.positions, "TSLA") == [two] by {
      var keep := (p: Position) => p.symbol == "TSLA";
      assert b2.positions == [one] + [two];
      FilterConcat([one], [two], keep);
      assert Filter([one], keep) == [] by { assert [one][1..] == []; }
      assert Filter([two], keep) == [two] by { assert [two][1..] == []; }
    }
    QuietCheckChangesNothing(b2, [two], "TSLA", 110.0, 50.0, 50.0, fills);
    assert HistoryOf(e1.history, "TSLA") == flat;
    var e2 := SymbolStep(e1, config, "TSLA", 110.0, fills);
    assert e2.book == b2;
    assert CycleSteps(e, config, ["AAPL", "TSLA"], [110.0, 110.0], fills) == e2 by {
      assert ["AAPL", "TSLA"][1..] == ["TSLA"];
      assert [110.0 as Price, 110.0][1..] == [110.0];
    }
  }

  /** The snapshot `getStats` returns. */
  datatype BotStats = BotStats(stats: Stats, isActive: bool, openPositions: nat, symbols: seq<string>)

  class UserTradingBot {
    const userId: string
    const config: Config
    var isActive: bool
    var stats: Stats
    var positions: seq<Position>
    var orders: nat
    var priceHistory: map<string, seq<Price>>

    function Holdings(): Book
      reads this
    {
      Book(positions, stats, orders)
    }

    function State(): Engine
      reads this
    {
      Engine(priceHistory, Holdings())
    }

    ghost predicate Valid()
      reads this
    {
      EngineValid(State())
    }

    /** A new bot is inactive, with zero counters, no positions and no
        history. */
    constructor (userId: string, config: Config)
      ensures this.userId == userId && this.config == config
      ensures !isActive && State() == Engine(map[], EmptyBook)
      ensures Valid()
    {
      this.userId := userId;
      this.config := config;
      isActive := false;
      stats := NoStats;
      positions := [];
      orders := 0;
      priceHistory := map[];
    }

    /** `start`: activates the bot; on an active bot it changes nothing. */
    method Start()
      modifies this`isActive
      ensures isActive
      ensures State() == old(State())
    {
      if isActive {
        return;
      }
      isActive := true;
    }

    /** `stop`: deactivates the bot; the loop sees the flag at its next check. */
    method Stop()
      modifies this`isActive
      ensures !isActive
      ensures State() == old(State())
    {
      isActive := false;
    }

    /** The history update of `processSymbol`: create the symbol's array on
        first use, push the quote, shift once past 100 entries. */
    method RecordPrice(symbol: string, price: Price) returns (prices: seq<Price>)
      requires Valid()
      modifies this`priceHistory
      ensures Valid()
      ensures prices == Appended(HistoryOf(old(priceHistory), symbol), price)
      ensures prices == Recent(HistoryOf(old(priceHistory), symbol) + [price])
      ensures priceHistory == old(priceHistory)[symbol := prices]
    {
      AppendedBounded(HistoryOf(priceHistory, symbol), price);
      if symbol !in priceHistory {
        priceHistory := priceHistory[symbol := []];
      }
      prices := priceHistory[symbol] + [price];
      if |prices| > Capacity {
        prices := prices[1..];
      }
      priceHistory := priceHistory[symbol := prices];
    }

    /** `executeBuy`. */
    method ExecuteBuy(symbol: string, price: Price, broker: nat -> bool)
      requires Valid()
      modifies this`positions, this`stats, this`orders
      ensures Valid()
      ensures Holdings() == AfterBuy(old(Holdings()), symbol, price, config.tradeAmount, Fills(config.mode, broker))
    {
      ghost var before := Holdings();
      BuyOpensOnePosition(before, symbol, price, config.tradeAmount, Fills(config.mode, broker));
      var quantity := Quantity(config.tradeAmount, price);
      if quantity < 1 {
        return;
      }
      var orderId := orders;
      orders := orders + 1;
      if config.mode == "live" && !broker(orderId) {
        return;  // the broker rejected the order: reported, nothing recorded
      }
      positions := positions + [Position(symbol, quantity, price, "buy", orderId)];
      stats := stats.(totalTrades := stats.totalTrades + 1, dailyTrades := stats.dailyTrades + 1);
    }

    /** `executeSell`. */
    method ExecuteSell(symbol: string, price: Price, broker: nat -> bool)
      requires Valid()
      modifies this`positions, this`stats, this`orders
      ensures Valid()
      ensures Holdings() == AfterSell(old(Holdings()), symbol, price, Fills(config.mode, broker))
    {
      ghost var before := Holdings();
      SellClosesOldest(before, symbol, price, Fills(config.mode, broker));
      var open := OpenPositions(positions, symbol);
      if |open| == 0 {
        return;
      }
      var position := open[0];
      var orderId := orders;
      orders := orders + 1;
      if config.mode == "live" && !broker(orderId) {
        return;  // the broker rejected the order: reported, nothing closed
      }
      var pl := (price - position.entryPrice) * position.quantity as real;
      stats := stats.(totalPL := stats.totalPL + pl, dailyPL := stats.dailyPL + pl, monthlyPL := stats.monthlyPL + pl);
      if pl > 0.0 {
        stats := stats.(wins := stats.wins + 1);
      } else {
        stats := stats.(losses := stats.losses + 1);
      }
      positions := DeleteKey(positions, symbol, position.orderId);
    }

    /** `checkPositions`: loops over a snapshot of the symbol's positions taken
        before any sell; each stop-loss or take-profit hit sells once. */
    method CheckPositions(symbol: string, currentPrice: Price, broker: nat -> bool)
      requires Valid()
      modifies this`positions, this`stats, this`orders
      ensures Valid()
      ensures Holdings() == AfterCheck(old(Holdings()), symbol, currentPrice, config.stopLoss, config.takeProfit, Fills(config.mode, broker))
    {
      ghost var fills := Fills(config.mode, broker);
      var snapshot := SymbolPositions(positions, symbol);
      var i := 0;
      while i < |snapshot|
        invariant 0 <= i <= |snapshot|
        invariant Valid()
        invariant CheckRisk(Holdings(), snapshot[i..], symbol, currentPrice, config.stopLoss, config.takeProfit, fills)
               == CheckRisk(old(Holdings()), snapshot, symbol, currentPrice, config.stopLoss, config.takeProfit, fills)
      {
        ghost var rest := snapshot[i..];
        assert rest[0] == snapshot[i] && rest[1..] == snapshot[i + 1..];
        var position := snapshot[i];
        var percentChange := PercentChange(position.entryPrice, currentPrice);
        if position.side == "buy" && percentChange <= -config.stopLoss {
          ExecuteSell(symbol, currentPrice, broker);
        }
        if position.side == "buy" && percentChange >= config.takeProfit {
          ExecuteSell(symbol, currentPrice, broker);
        }
        i := i + 1;
      }
    }

    /** `processSymbol` for one quote. */
    method ProcessSymbol(symbol: string, currentPrice: Price, broker: nat -> bool)
      requires Valid()
      modifies this`priceHistory, this`positions, this`stats, this`orders
      ensures Valid()
      ensures State() == SymbolStep(old(State()), config, symbol, currentPrice, Fills(config.mode, broker))
    {
      var prices := RecordPrice(symbol, currentPrice);
      var signal := TradeSignal(config.strategy, prices);
      if signal == Buy {
        ExecuteBuy(symbol, currentPrice, broker);
      } else if signal == Sell {
        ExecuteSell(symbol, currentPrice, broker);
      }
      CheckPositions(symbol, currentPrice, broker);
    }

    /** `processTradingCycle`, with one quote per configured symbol. */
    method ProcessTradingCycle(currentPrices: seq<Price>, broker: nat -> bool)
      requires Valid() && |currentPrices| == |config.symbols|
      modifies this`priceHistory, this`positions, this`stats, this`orders
      ensures Valid()
      ensures State() == Cycle(old(State()), config, isActive, currentPrices, Fills(config.mode, broker))
    {
      ghost var fills := Fills(config.mode, broker);
      if stats.dailyTrades >= config.maxTrades {
        return;
      }
      var i := 0;
      while i < |config.symbols|
        invariant 0 <= i <= |config.symbols|
        invariant Valid()
        invariant !isActive ==> i == 0 && State() == old(State())
        invariant isActive ==>
          CycleSteps(State(), config, config.symbols[i..], currentPrices[i..], fills)
            == CycleSteps(old(State()), config, config.symbols, currentPrices, fills)
      {
        if !isActive {
          break;
        }
        ghost var symbols, prices := config.symbols[i..], currentPrices[i..];
        assert symbols[1..] == config.symbols[i + 1..] && prices[1..] == currentPrices[i + 1..];
        ProcessSymbol(config.symbols[i], currentPrices[i], broker);
        i := i + 1;
      }
    }

    /** `getStats`: the counters, the flag, the number of open positions and
        the configured symbols; every counted trade is open, won or lost. */
    method GetStats() returns (s: BotStats)
      requires Valid()
      ensures s == BotStats(stats, isActive, |positions|, config.symbols)
      ensures s.stats.wins + s.stats.losses + s.openPositions == s.stats.totalTrades
    {
      s := BotStats(stats, isActive, |positions|, config.symbols);
    }
  }
}
