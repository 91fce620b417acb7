/**
 * The per-symbol price history of a bot (`priceHistory` in server.js): each
 * new quote is pushed, and when the array grows past 100 entries the oldest
 * one is shifted out.
 */
module History {

  const Capacity: nat := 100

  /** The history after `prices.push(price)` and, if it then holds more than
      `Capacity` entries, one `prices.shift()`. */
  function Appended<T>(history: seq<T>, price: T): seq<T>
  {
    var pushed := history + [price];
    if |pushed| > Capacity then pushed[1..] else pushed
  }

  /** The most recent `Capacity` entries of `s` (all of them if fewer). */
  function Recent<T>(s: seq<T>): (r: seq<T>)
    ensures |r| <= Capacity
  {
    if |s| <= Capacity then s else s[|s| - Capacity..]
  }

  /** Histories built from a sequence of quotes, one `Appended` per quote. */
  function AppendedAll<T>(history: seq<T>, prices: seq<T>): seq<T>
    decreases |prices|
  {
    if prices == [] then history else AppendedAll(Appended(history, prices[0]), prices[1..])
  }

  /** One append on a history within capacity keeps it within capacity, ends
      with the new quote, and drops exactly the oldest entry when the history
      was full, keeping the others in order. */
  lemma AppendedBounded<T>(history: seq<T>, price: T)
    requires |history| <= Capacity
    ensures var r := Appended(history, price);
      && |r| <= Capacity
      && r[|r| - 1] == price
      && (|history| < Capacity ==> r == history + [price])
      && (|history| == Capacity ==> r == history[1..] + [price])
      && r == Recent(history + [price])
  {
  }

  /** Trimming to the most recent `Capacity` entries before appending more
      changes nothing. */
  lemma {:induction false} RecentOfRecent<T>(s: seq<T>, t: seq<T>)
    ensures Recent(Recent(s) + t) == Recent(s + t)
  {
    if |s| > Capacity && |t| > 0 {
      var k := |s| - Capacity;
      var u := s[k..] + t;
      var st := s + t;
      assert Recent(s) + t == u;
      assert Recent(u) == u[|t|..];
      assert Recent(st) == st[k + |t|..];
      forall j | 0 <= j < Capacity
        ensures u[|t|..][j] == st[k + |t|..][j]
      {
        if j < Capacity - |t| {
          assert u[|t| + j] == s[k + |t| + j];
        }
      }
    } else if |s| > Capacity {
      assert t == [] && s + t == s;
    }
  }

  /** However many quotes arrive, the history is the most recent `Capacity`
      of everything seen: never longer than `Capacity`, evicting oldest first. */
  lemma {:induction false} AppendedAllIsRecent<T>(history: seq<T>, prices: seq<T>)
    requires |history| <= Capacity
    ensures AppendedAll(history, prices) == Recent(history + prices)
    ensures |AppendedAll(history, prices)| <= Capacity
    decreases |prices|
  {
    if prices != [] {
      AppendedBounded(history, prices[0]);
      var next := Appended(history, prices[0]);
      AppendedAllIsRecent(next, prices[1..]);
      RecentOfRecent(history + [prices[0]], prices[1..]);
      calc {
        AppendedAll(history, prices);
        AppendedAll(next, prices[1..]);
        Recent(next + prices[1..]);
        { assert next == Recent(history + [prices[0]]); }
        Recent(Recent(history + [prices[0]]) + prices[1..]);
        Recent(history + [prices[0]] + prices[1..]);
        { assert history + [prices[0]] + prices[1..] == history + prices; }
        Recent(history + prices);
      }
    }
  }
}
