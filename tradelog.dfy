/** The trade log: manually entered trades, kept in insertion order. */
module TradeLog {

  datatype Side = Buy | Sell

  /** One logged trade (app.py:201-206): the coin, whether it was a buy or a
      sell, the amount and the price. */
  datatype Trade = Trade(coin: string, side: Side, amount: real, price: real)

  /** The log with one more trade at its end. */
  function Appended(trades: seq<Trade>, t: Trade): (r: seq<Trade>)
    ensures |r| == |trades| + 1
    ensures r[|trades|] == t
    ensures r[..|trades|] == trades
  {
    trades + [t]
  }

  /** Logging several trades one after the other keeps the earlier entries
      and puts the new ones after them, in the order they were logged. */
  function AppendedAll(trades: seq<Trade>, ts: seq<Trade>): seq<Trade>
    decreases |ts|
  {
    if ts == [] then trades else AppendedAll(Appended(trades, ts[0]), ts[1..])
  }

  lemma {:induction false} AppendedAllConcatenates(trades: seq<Trade>, ts: seq<Trade>)
    ensures AppendedAll(trades, ts) == trades + ts
    decreases |ts|
  {
    if ts != [] {
      AppendedAllConcatenates(Appended(trades, ts[0]), ts[1..]);
      assert trades + [ts[0]] + ts[1..] == trades + ts;
    }
  }

  /** The in-memory list of trades the app loads, appends to and saves. */
  class Log {
    var trades: seq<Trade>

    /** The list as loaded (empty when nothing was saved yet). */
    constructor (loaded: seq<Trade>)
      ensures trades == loaded
    {
      trades := loaded;
    }

    /** Logging a trade (app.py:200-207): the trade goes at the end of the list. */
    method Append(t: Trade)
      modifies this
      ensures trades == Appended(old(trades), t)
    {
      trades := trades + [t];
    }
  }
}
