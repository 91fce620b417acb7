/**
 * The position-and-risk ledger of one bot (`positions` and `stats` of
 * `UserTradingBot` in server.js, and what `executeBuy`, `executeSell` and
 * `checkPositions` do to them), as values. The JavaScript `Map` of positions
 * keeps insertion order, so it is a sequence here, oldest first; its key
 * `${symbol}_${orderId}` is the pair (symbol, orderId).
 */
module Ledger {
  import opened Indicators

  datatype Position = Position(symbol: string, quantity: nat, entryPrice: Price, side: string, orderId: nat)

  datatype Stats = Stats(
    totalTrades: nat, wins: nat, losses: nat,
    totalPL: real, dailyPL: real, monthlyPL: real,
    dailyTrades: nat)

  const NoStats := Stats(0, 0, 0, 0.0, 0.0, 0.0, 0)

  /** Open positions in insertion order, the counters, and the number of
      orders submitted so far. The order counter stands for the order ids the
      source takes from the clock or from the broker: the n-th order gets id n. */
  datatype Book = Book(positions: seq<Position>, stats: Stats, orders: nat)

  const EmptyBook := Book([], NoStats, 0)

  /** Every position is a long of at least one share under an id already
      issued, and no two positions share an id (so no two share a key). */
  predicate WellFormed(b: Book)
  {
    && (forall i :: 0 <= i < |b.positions| ==>
          b.positions[i].quantity >= 1 && b.positions[i].side == "buy" && b.positions[i].orderId < b.orders)
    && (forall i, j :: 0 <= i < j < |b.positions| ==> b.positions[i].orderId != b.positions[j].orderId)
  }

  /** Every counted trade is either still open or was closed as a win or a loss. */
  predicate Balanced(b: Book)
  {
    b.stats.wins + b.stats.losses + |b.positions| == b.stats.totalTrades
  }

  /** Nothing resets the daily or monthly fields, so they track the totals. */
  predicate NeverReset(s: Stats)
  {
    s.dailyTrades == s.totalTrades && s.dailyPL == s.totalPL && s.monthlyPL == s.totalPL
  }

  predicate Valid(b: Book)
  {
    WellFormed(b) && Balanced(b) && NeverReset(b.stats)
  }

  // ---------------------------------------------------------------- filters

  function Filter<T>(s: seq<T>, keep: T -> bool): (r: seq<T>)
    ensures |r| <= |s|
  {
    if s == [] then [] else (if keep(s[0]) then [s[0]] else []) + Filter(s[1..], keep)
  }

  lemma {:induction false} FilterConcat<T>(a: seq<T>, b: seq<T>, keep: T -> bool)
    ensures Filter(a + b, keep) == Filter(a, keep) + Filter(b, keep)
  {
    if a != [] {
      var head := if keep(a[0]) then [a[0]] else [];
      assert (a + b)[0] == a[0];
      assert (a + b)[1..] == a[1..] + b;
      FilterConcat(a[1..], b, keep);
      calc {
        Filter(a + b, keep);
        head + Filter(a[1..] + b, keep);
        head + (Filter(a[1..], keep) + Filter(b, keep));
        (head + Filter(a[1..], keep)) + Filter(b, keep);
        Filter(a, keep) + Filter(b, keep);
      }
    } else {
      assert a + b == b;
    }
  }

  lemma {:induction false} FilterKeepsAll<T>(s: seq<T>, keep: T -> bool)
    requires forall i :: 0 <= i < |s| ==> keep(s[i])
    ensures Filter(s, keep) == s
  {
    if s != [] {
      FilterKeepsAll(s[1..], keep);
    }
  }

  predicate IsOpenFor(p: Position, symbol: string)
  {
    p.symbol == symbol && p.side == "buy"
  }

  /** `Array.from(positions.values()).filter(pos => pos.symbol === symbol && pos.side === 'buy')`. */
  function OpenPositions(ps: seq<Position>, symbol: string): seq<Position>
  {
    Filter(ps, (p: Position) => IsOpenFor(p, symbol))
  }

  /** `Array.from(positions.values()).filter(pos => pos.symbol === symbol)`. */
  function SymbolPositions(ps: seq<Position>, symbol: string): seq<Position>
  {
    Filter(ps, (p: Position) => p.symbol == symbol)
  }

  /** The positions held in every other symbol. */
  function OtherSymbols(ps: seq<Position>, symbol: string): seq<Position>
  {
    Filter(ps, (p: Position) => p.symbol != symbol)
  }

  /** `positions.delete(`${symbol}_${orderId}`)`. */
  function DeleteKey(ps: seq<Position>, symbol: string, orderId: nat): seq<Position>
  {
    Filter(ps, (p: Position) => !(p.symbol == symbol && p.orderId == orderId))
  }

  /** Index of the oldest open long in `symbol`, or `|ps|` when there is none. */
  function FirstOpen(ps: seq<Position>, symbol: string): (i: nat)
    ensures i <= |ps|
    ensures i < |ps| ==> IsOpenFor(ps[i], symbol)
    ensures forall j :: 0 <= j < i ==> !IsOpenFor(ps[j], symbol)
  {
    if ps == [] then 0
    else if IsOpenFor(ps[0], symbol) then 0
    else 1 + FirstOpen(ps[1..], symbol)
  }

  /** The first element of the filtered list is the oldest open position. */
  lemma {:induction false} OldestOpenIsHead(ps: seq<Position>, symbol: string)
    ensures OpenPositions(ps, symbol) == [] <==> FirstOpen(ps, symbol) == |ps|
    ensures FirstOpen(ps, symbol) < |ps| ==> OpenPositions(ps, symbol)[0] == ps[FirstOpen(ps, symbol)]
  {
    if ps != [] && !IsOpenFor(ps[0], symbol) {
      OldestOpenIsHead(ps[1..], symbol);
    }
  }

  /** Filtering out one element that `keep` rejects gives what filtering the
      whole sequence gives. */
  lemma {:induction false} FilterSkipsRejected<T>(s: seq<T>, i: nat, keep: T -> bool)
    requires i < |s| && !keep(s[i])
    ensures Filter(s[..i] + s[i + 1..], keep) == Filter(s, keep)
  {
    var before, after := s[..i], s[i + 1..];
    var one := [s[i]];
    assert s == before + (one + after);
    FilterConcat(before, one + after, keep);
    FilterConcat(one, after, keep);
    FilterConcat(before, after, keep);
    assert Filter(one, keep) == [] by {
      assert one[1..] == [];
      assert !keep(one[0]);
    }
    calc {
      Filter(s, keep);
      Filter(before, keep) + Filter(one + after, keep);
      Filter(before, keep) + (Filter(one, keep) + Filter(after, keep));
      Filter(before, keep) + Filter(after, keep);
      Filter(before + after, keep);
    }
  }

  /** With distinct ids, deleting the key of the i-th position removes exactly
      that position and keeps the others in order. */
  lemma {:induction false} DeleteKeyAt(ps: seq<Position>, i: nat)
    requires i < |ps|
    requires forall j, k :: 0 <= j < k < |ps| ==> ps[j].orderId != ps[k].orderId
    ensures DeleteKey(ps, ps[i].symbol, ps[i].orderId) == ps[..i] + ps[i + 1..]
  {
    var symbol, id := ps[i].symbol, ps[i].orderId;
    var keep := (p: Position) => !(p.symbol == symbol && p.orderId == id);
    var rest := ps[..i] + ps[i + 1..];
    forall j | 0 <= j < |rest| ensures keep(rest[j]) {
      if j < i {
        assert rest[j] == ps[j];
      } else {
        assert rest[j] == ps[j + 1];
      }
    }
    FilterKeepsAll(rest, keep);
    FilterSkipsRejected(ps, i, keep);
  }

  /** Removing a position held in `symbol` leaves every other symbol's
      positions as they were. */
  lemma {:induction false} RemoveKeepsOthers(ps: seq<Position>, i: nat, symbol: string)
    requires i < |ps| && ps[i].symbol == symbol
    ensures OtherSymbols(ps[..i] + ps[i + 1..], symbol) == OtherSymbols(ps, symbol)
  {
    FilterSkipsRejected(ps, i, (p: Position) => p.symbol != symbol);
  }

  // ---------------------------------------------------------------- buying

  /** `Math.floor(tradeAmount / price)`. */
  function Quantity(tradeAmount: real, price: Price): int
  {
    (tradeAmount / price).Floor
  }

  /** Multiplying by a positive factor keeps strict and non-strict order. */
  lemma ScaleOrder(a: real, b: real, p: real)
    requires p > 0.0 && a <= b
    ensures a * p <= b * p
    ensures a < b ==> a * p < b * p
  {
    assert b * p - a * p == (b - a) * p;
    if a < b {
      MulPositive(b - a, p);
    }
  }

  /** The quantity is the largest whole number of shares the trade budget pays
      for at this price. */
  lemma QuantityIsLargestAffordable(tradeAmount: real, price: Price)
    ensures Quantity(tradeAmount, price) as real * price <= tradeAmount
    ensures tradeAmount < (Quantity(tradeAmount, price) + 1) as real * price
  {
    var p: real := price;
    var x := tradeAmount / p;
    var q: real := x.Floor as real;
    assert x * p == tradeAmount;
    assert q <= x < q + 1.0;
    ScaleOrder(q, x, p);
    ScaleOrder(x, q + 1.0, p);
    assert Quantity(tradeAmount, price) as real == q;
    assert tradeAmount < (q + 1.0) * p;
    assert (Quantity(tradeAmount, price) + 1) as real == q + 1.0;
  }

  lemma QuantityExamples()
    ensures Quantity(1000.0, 334.0) == 2
    ensures Quantity(100.0, 334.0) == 0
  {
  }

  /** `executeBuy`: size the order; below one share nothing happens. The order
      is submitted (it takes the next order number); when it fails, nothing
      but the order counter changes; when it fills, one position is recorded
      and the trade is counted. */
  function AfterBuy(b: Book, symbol: string, price: Price, tradeAmount: real, fills: nat -> bool): Book
  {
    var quantity := Quantity(tradeAmount, price);
    if quantity < 1 then b
    else if !fills(b.orders) then b.(orders := b.orders + 1)
    else
      Book(b.positions + [Position(symbol, quantity, price, "buy", b.orders)],
           b.stats.(totalTrades := b.stats.totalTrades + 1, dailyTrades := b.stats.dailyTrades + 1),
           b.orders + 1)
  }

  /** A buy keeps the book valid; it appends exactly one position of
      `floor(tradeAmount / price)` shares entered at `price` when at least one
      share is affordable and the order fills, counting one trade and leaving
      wins, losses and P&L alone; otherwise positions and counters stay. */
  lemma {:induction false} BuyOpensOnePosition(b: Book, symbol: string, price: Price, tradeAmount: real, fills: nat -> bool)
    requires Valid(b)
    ensures var r := AfterBuy(b, symbol, price, tradeAmount, fills);
      var q := Quantity(tradeAmount, price);
      && Valid(r)
      && r.orders >= b.orders
      && OtherSymbols(r.positions, symbol) == OtherSymbols(b.positions, symbol)
      && (q < 1 || !fills(b.orders) ==> r.positions == b.positions && r.stats == b.stats)
      && (q >= 1 && fills(b.orders) ==>
            && r.positions == b.positions + [Position(symbol, q, price, "buy", b.orders)]
            && r.stats.totalTrades == b.stats.totalTrades + 1
            && r.stats.dailyTrades == b.stats.dailyTrades + 1
            && r.stats.wins == b.stats.wins && r.stats.losses == b.stats.losses
            && r.stats.totalPL == b.stats.totalPL && r.stats.dailyPL == b.stats.dailyPL
            && r.stats.monthlyPL == b.stats.monthlyPL)
  {
    var q := Quantity(tradeAmount, price);
    if q >= 1 && fills(b.orders) {
      var p := Position(symbol, q, price, "buy", b.orders);
      FilterConcat(b.positions, [p], (q: Position) => q.symbol != symbol);
    }
  }

  // ---------------------------------------------------------------- selling

  /** A closed trade books its P&L everywhere and counts a win when the P&L is
      positive and a loss otherwise (a P&L of exactly zero is a loss). */
  function Realize(s: Stats, pl: real): Stats
  {
    s.(totalPL := s.totalPL + pl, dailyPL := s.dailyPL + pl, monthlyPL := s.monthlyPL + pl,
       wins := if pl > 0.0 then s.wins + 1 else s.wins,
       losses := if pl > 0.0 then s.losses else s.losses + 1)
  }

  /** `executeSell`: take the first open long in the symbol; with none, nothing
      happens. The order is submitted; when it fails only the order counter
      changes; when it fills the P&L is booked and the position's key deleted. */
  function AfterSell(b: Book, symbol: string, price: Price, fills: nat -> bool): Book
  {
    var open := OpenPositions(b.positions, symbol);
    if |open| == 0 then b
    else
      var position := open[0];
      if !fills(b.orders) then b.(orders := b.orders + 1)
      else
        var pl := (price - position.entryPrice) * position.quantity as real;
        Book(DeleteKey(b.positions, symbol, position.orderId), Realize(b.stats, pl), b.orders + 1)
  }

  /** The profit or loss of closing `p` at `price`. */
  function ProfitOf(p: Position, price: Price): real
  {
    (price - p.entryPrice) * p.quantity as real
  }

  /** A sell keeps the book valid and never touches other symbols or the trade
      count. With no open long in the symbol it changes nothing. Otherwise, on
      a fill, it removes exactly the oldest open long in the symbol (the others
      keep their order), adds `(price - entryPrice) * quantity` to all three
      P&L fields and counts a win iff that P&L is positive, else a loss; on a
      failed order positions and counters stay. */
  lemma {:induction false} SellClosesOldest(b: Book, symbol: string, price: Price, fills: nat -> bool)
    requires Valid(b)
    ensures var r := AfterSell(b, symbol, price, fills);
      var i := FirstOpen(b.positions, symbol);
      && Valid(r)
      && r.orders >= b.orders
      && r.stats.totalTrades == b.stats.totalTrades
      && OtherSymbols(r.positions, symbol) == OtherSymbols(b.positions, symbol)
      && (i == |b.positions| ==> r == b)
      && (i < |b.positions| && !fills(b.orders) ==> r.positions == b.positions && r.stats == b.stats)
      && (i < |b.positions| && fills(b.orders) ==>
            var pl := ProfitOf(b.positions[i], price);
            && r.positions == b.positions[..i] + b.positions[i + 1..]
            && r.stats.totalPL == b.stats.totalPL + pl
            && r.stats.dailyPL == b.stats.dailyPL + pl
            && r.stats.monthlyPL == b.stats.monthlyPL + pl
            && (pl > 0.0 ==> r.stats.wins == b.stats.wins + 1 && r.stats.losses == b.stats.losses)
            && (pl <= 0.0 ==> r.stats.wins == b.stats.wins && r.stats.losses == b.stats.losses + 1))
  {
    var ps := b.positions;
    var i := FirstOpen(ps, symbol);
    OldestOpenIsHead(ps, symbol);
    if i < |ps| && fills(b.orders) {
      SellRemovesAt(b, symbol, price, fills);
      RemoveKeepsOthers(ps, i, symbol);
      var r := AfterSell(b, symbol, price, fills);
      RemoveKeepsWellFormed(b, i, r.stats, r.orders);
    }
  }

  /** On a fill, the sell is the removal of the oldest open long plus the
      booking of its P&L. */
  lemma {:induction false} SellRemovesAt(b: Book, symbol: string, price: Price, fills: nat -> bool)
    requires WellFormed(b)
    requires FirstOpen(b.positions, symbol) < |b.positions| && fills(b.orders)
    ensures var i := FirstOpen(b.positions, symbol);
      AfterSell(b, symbol, price, fills)
        == Book(b.positions[..i] + b.positions[i + 1..], Realize(b.stats, ProfitOf(b.positions[i], price)), b.orders + 1)
  {
    var ps := b.positions;
    var i := FirstOpen(ps, symbol);
    OldestOpenIsHead(ps, symbol);
    var position := OpenPositions(ps, symbol)[0];
    assert position == ps[i] && position.symbol == symbol;
    DeleteKeyAt(ps, i);
    assert DeleteKey(ps, symbol, position.orderId) == ps[..i] + ps[i + 1..];
  }

  lemma {:induction false} RemoveKeepsWellFormed(b: Book, i: nat, stats: Stats, orders: nat)
    requires WellFormed(b) && i < |b.positions| && orders >= b.orders
    ensures WellFormed(Book(b.positions[..i] + b.positions[i + 1..], stats, orders))
  {
    var ps := b.positions;
    var rest := ps[..i] + ps[i + 1..];
    assert forall j :: 0 <= j < |rest| ==> rest[j] == ps[if j < i then j else j + 1];
  }

  // ---------------------------------------------------------------- risk

  /** `(currentPrice - entryPrice) / entryPrice * 100`. */
  function PercentChange(entry: Price, current: Price): real
  {
    (current - entry) / entry * 100.0
  }

  predicate StopLossHit(p: Position, price: Price, stopLoss: real)
  {
    p.side == "buy" && PercentChange(p.entryPrice, price) <= -stopLoss
  }

  predicate TakeProfitHit(p: Position, price: Price, takeProfit: real)
  {
    p.side == "buy" && PercentChange(p.entryPrice, price) >= takeProfit
  }

  /** Both risk bounds are inclusive: the stop-loss fires exactly at or below
      `entry * (1 - stopLoss / 100)`, the take-profit exactly at or above
      `entry * (1 + takeProfit / 100)`. */
  lemma {:induction false} RiskBoundsInclusive(entry: Price, price: Price, stopLoss: real, takeProfit: real)
    ensures PercentChange(entry, price) <= -stopLoss <==> price <= entry * (1.0 - stopLoss / 100.0)
    ensures PercentChange(entry, price) >= takeProfit <==> price >= entry * (1.0 + takeProfit / 100.0)
  {
    var d := price - entry;
    assert PercentChange(entry, price) == d / entry * 100.0;
    DivCompare(d, entry, -stopLoss / 100.0);
    DivCompare(d, entry, takeProfit / 100.0);
  }

  lemma RiskBoundExamples()
    ensures StopLossHit(Position("X", 1, 100.0, "buy", 0), 94.99, 5.0)
    ensures StopLossHit(Position("X", 1, 100.0, "buy", 0), 95.0, 5.0)
    ensures !StopLossHit(Position("X", 1, 100.0, "buy", 0), 95.01, 5.0)
    ensures TakeProfitHit(Position("X", 1, 100.0, "buy", 0), 110.01, 10.0)
    ensures TakeProfitHit(Position("X", 1, 100.0, "buy", 0), 110.0, 10.0)
    ensures !TakeProfitHit(Position("X", 1, 100.0, "buy", 0), 109.99, 10.0)
  {
  }

  /** The loop of `checkPositions` over a snapshot: for each snapshot position,
      one sell if its stop-loss is hit, then one more sell if its take-profit
      is hit. Each sell closes whatever is then the oldest open long. */
  function CheckRisk(b: Book, snapshot: seq<Position>, symbol: string, price: Price,
                     stopLoss: real, takeProfit: real, fills: nat -> bool): Book
    decreases |snapshot|
  {
    if snapshot == [] then b
    else
      var position := snapshot[0];
      var afterStop := if StopLossHit(position, price, stopLoss) then AfterSell(b, symbol, price, fills) else b;
      var afterTake := if TakeProfitHit(position, price, takeProfit) then AfterSell(afterStop, symbol, price, fills) else afterStop;
      CheckRisk(afterTake, snapshot[1..], symbol, price, stopLoss, takeProfit, fills)
  }

  /** `checkPositions`: the snapshot is taken before any sell. */
  function AfterCheck(b: Book, symbol: string, price: Price, stopLoss: real, takeProfit: real, fills: nat -> bool): Book
  {
    CheckRisk(b, SymbolPositions(b.positions, symbol), symbol, price, stopLoss, takeProfit, fills)
  }

  /** How many risk checks over the snapshot fire. */
  function Triggers(snapshot: seq<Position>, price: Price, stopLoss: real, takeProfit: real): nat
  {
    if snapshot == [] then 0
    else
      var stop := if StopLossHit(snapshot[0], price, stopLoss) then 1 else 0;
      var take := if TakeProfitHit(snapshot[0], price, takeProfit) then 1 else 0;
      stop + take + Triggers(snapshot[1..], price, stopLoss, takeProfit)
  }

  /** A risk check keeps the book valid, closes at most one position per
      check that fires (and opens none), never touches other symbols and never
      changes the trade count; the wins and losses grow by exactly the number
      of positions closed. */
  lemma {:induction false} CheckRiskClosesAtMostTriggers(b: Book, snapshot: seq<Position>, symbol: string,
      price: Price, stopLoss: real, takeProfit: real, fills: nat -> bool)
    requires Valid(b)
    ensures var r := CheckRisk(b, snapshot, symbol, price, stopLoss, takeProfit, fills);
      && Valid(r)
      && r.orders >= b.orders
      && |b.positions| - Triggers(snapshot, price, stopLoss, takeProfit) <= |r.positions| <= |b.positions|
      && r.stats.totalTrades == b.stats.totalTrades
      && r.stats.wins + r.stats.losses == b.stats.wins + b.stats.losses + (|b.positions| - |r.positions|)
      && OtherSymbols(r.positions, symbol) == OtherSymbols(b.positions, symbol)
    decreases |snapshot|
  {
    if snapshot != [] {
      var position := snapshot[0];
      SellClosesOldest(b, symbol, price, fills);
      var afterStop := if StopLossHit(position, price, stopLoss) then AfterSell(b, symbol, price, fills) else b;
      SellClosesOldest(afterStop, symbol, price, fills);
      var afterTake := if TakeProfitHit(position, price, takeProfit) then AfterSell(afterStop, symbol, price, fills) else afterStop;
      CheckRiskClosesAtMostTriggers(afterTake, snapshot[1..], symbol, price, stopLoss, takeProfit, fills);
    }
  }

  /** When no check over the snapshot fires, the risk check changes nothing. */
  lemma {:induction false} QuietCheckChangesNothing(b: Book, snapshot: seq<Position>, symbol: string,
      price: Price, stopLoss: real, takeProfit: real, fills: nat -> bool)
    requires Triggers(snapshot, price, stopLoss, takeProfit) == 0
    ensures CheckRisk(b, snapshot, symbol, price, stopLoss, takeProfit, fills) == b
    decreases |snapshot|
  {
    if snapshot != [] {
      QuietCheckChangesNothing(b, snapshot[1..], symbol, price, stopLoss, takeProfit, fills);
    }
  }

  /** The close a risk check makes is not necessarily the triggering
      position's: here the newer position hits its stop-loss (exactly -5%),
      the sell closes the older, profitable one and books a win, and the
      losing position stays open. */
  lemma StopLossMayCloseAnotherPosition()
    ensures
      var older := Position("AAPL", 1, 100.0, "buy", 0);
      var newer := Position("AAPL", 1, 200.0, "buy", 1);
      var b := Book([older, newer], Stats(2, 0, 0, 0.0, 0.0, 0.0, 2), 2);
      var r := AfterCheck(b, "AAPL", 190.0, 5.0, 1000.0, k => true);
      && !StopLossHit(older, 190.0, 5.0) && !TakeProfitHit(older, 190.0, 1000.0)
      && StopLossHit(newer, 190.0, 5.0)
      && r.positions == [newer]
      && r.stats.wins == 1 && r.stats.totalPL == 90.0
  {
    var older := Position("AAPL", 1, 100.0, "buy", 0);
    var newer := Position("AAPL", 1, 200.0, "buy", 1);
    var ps := [older, newer];
    var b := Book(ps, Stats(2, 0, 0, 0.0, 0.0, 0.0, 2), 2);
    var fills: nat -> bool := k => true;
    FilterKeepsAll(ps, (p: Position) => p.symbol == "AAPL");
    assert SymbolPositions(ps, "AAPL") == ps;
    assert FirstOpen(ps, "AAPL") == 0;
    SellRemovesAt(b, "AAPL", 190.0, fills);
    assert ps[..0] + ps[1..] == [newer];
    assert ProfitOf(older, 190.0) == 90.0;
    var sold := Book([newer], Realize(b.stats, 90.0), 3);
    assert AfterSell(b, "AAPL", 190.0, fills) == sold;
    assert PercentChange(100.0, 190.0) == 90.0;
    assert PercentChange(200.0, 190.0) == -5.0;
    assert CheckRisk(b, ps, "AAPL", 190.0, 5.0, 1000.0, fills) == CheckRisk(b, [newer], "AAPL", 190.0, 5.0, 1000.0, fills) by {
      assert ps[1..] == [newer];
    }
    assert CheckRisk(b, [newer], "AAPL", 190.0, 5.0, 1000.0, fills) == CheckRisk(sold, [], "AAPL", 190.0, 5.0, 1000.0, fills);
  }
}
