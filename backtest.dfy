/** The SMA-crossover backtest run by the "Backtest SMA Strategy" button:
    start with 1000 USD in cash, go all in while SMA20 is above SMA50 and
    flat, sell everything while SMA20 is below SMA50 and holding. */
module Backtest {
  import opened Series
  import Indicators

  const StartingCash: real := 1000.0
  /** The first index the loop visits (it starts at index 50). */
  const FirstIndex: nat := 50

  /** The simulated account: cash in USD and coins held. */
  datatype Wallet = Wallet(cash: real, coins: real)

  /** The account is either all cash or all coins, never both nor neither. */
  predicate AllInOne(w: Wallet) {
    (w.cash > 0.0 && w.coins == 0.0) || (w.cash == 0.0 && w.coins > 0.0)
  }

  /** The account valued at price p. */
  function Value(w: Wallet, p: real): real {
    w.cash + w.coins * p
  }

  predicate PositivePrices(prices: seq<real>) {
    forall i :: 0 <= i < |prices| ==> prices[i] > 0.0
  }

  /** The columns the backtest reads: prices and two SMA columns of equal length. */
  predicate Aligned(prices: seq<real>, sma20: seq<Option<real>>, sma50: seq<Option<real>>) {
    |sma20| == |prices| && |sma50| == |prices| && PositivePrices(prices)
  }

  /** One iteration of the loop body (app.py:162-168) at price p: a buy
      turns all the cash into coins worth it at p, a sell turns all the coins
      into their worth at p, and otherwise nothing changes. */
  function Step(w: Wallet, p: real, s20: Option<real>, s50: Option<real>): (r: Wallet)
    requires p > 0.0
    ensures Gt(s20, s50) && w.coins == 0.0 ==> r.cash == 0.0 && r.coins * p == w.cash
    ensures !(Gt(s20, s50) && w.coins == 0.0) && Lt(s20, s50) && w.coins > 0.0 ==>
              r.coins == 0.0 && r.cash == w.coins * p
    ensures !(Gt(s20, s50) && w.coins == 0.0) && !(Lt(s20, s50) && w.coins > 0.0) ==> r == w
  {
    if Gt(s20, s50) && w.coins == 0.0 then Wallet(0.0, w.cash / p)
    else if Lt(s20, s50) && w.coins > 0.0 then Wallet(w.coins * p, 0.0)
    else w
  }

  /** The account after the loop has visited indices 50 .. k-1. */
  function Run(prices: seq<real>, sma20: seq<Option<real>>, sma50: seq<Option<real>>, k: nat): (r: Wallet)
    requires Aligned(prices, sma20, sma50)
    requires k <= FirstIndex || k <= |prices|
    ensures k <= FirstIndex ==> r == Wallet(StartingCash, 0.0)
    ensures r.cash >= 0.0 && r.coins >= 0.0
  {
    if k <= FirstIndex then Wallet(StartingCash, 0.0)
    else Step(Run(prices, sma20, sma50, k - 1), prices[k - 1], sma20[k - 1], sma50[k - 1])
  }

  /** The reported result (app.py:170): the cash if any, otherwise the coins
      marked to the last price. */
  function Outcome(prices: seq<real>, sma20: seq<Option<real>>, sma50: seq<Option<real>>): (r: real)
    requires Aligned(prices, sma20, sma50)
    ensures r >= 0.0
    ensures |prices| > 0 ==> r == Value(Run(prices, sma20, sma50, |prices|), prices[|prices| - 1])
  {
    var w := Run(prices, sma20, sma50, |prices|);
    RunAllInOne(prices, sma20, sma50, |prices|);
    if w.cash > 0.0 then w.cash else w.coins * prices[|prices| - 1]
  }

  /** The backtest loop (app.py:157-170). */
  method RunBacktest(prices: seq<real>, sma20: seq<Option<real>>, sma50: seq<Option<real>>)
    returns (final: real)
    requires Aligned(prices, sma20, sma50)
    ensures final == Outcome(prices, sma20, sma50)
    ensures final > 0.0
    ensures |prices| <= FirstIndex ==> final == StartingCash
  {
    var cash := StartingCash;
    var coinAmt := 0.0;
    var i := FirstIndex;
    while i < |prices|
      invariant FirstIndex <= i && (i == FirstIndex || i <= |prices|)
      invariant Wallet(cash, coinAmt) == Run(prices, sma20, sma50, i)
      invariant AllInOne(Wallet(cash, coinAmt))
    {
      if Gt(sma20[i], sma50[i]) && coinAmt == 0.0 {
        coinAmt := cash / prices[i];
        cash := 0.0;
      } else if Lt(sma20[i], sma50[i]) && coinAmt > 0.0 {
        cash := coinAmt * prices[i];
        coinAmt := 0.0;
      }
      i := i + 1;
      RunAllInOne(prices, sma20, sma50, i);
    }
    OutcomePositive(prices, sma20, sma50);
    final := if cash > 0.0 then cash else coinAmt * prices[|prices| - 1];
  }

  /** A trade converts the whole account at the step's price: its value at
      that price is the same before and after; a buy turns cash c into
      c / p coins, a sell turns coins q into q * p cash. */
  lemma StepConservesValue(w: Wallet, p: real, s20: Option<real>, s50: Option<real>)
    requires p > 0.0 && AllInOne(w)
    ensures AllInOne(Step(w, p, s20, s50))
    ensures Value(Step(w, p, s20, s50), p) == Value(w, p)
    ensures Step(w, p, s20, s50).coins > 0.0 && w.coins == 0.0 ==>
              Step(w, p, s20, s50).coins * p == w.cash
    ensures Step(w, p, s20, s50).cash > 0.0 && w.cash == 0.0 ==>
              Step(w, p, s20, s50).cash == w.coins * p
  {
    var v := Step(w, p, s20, s50);
    if Gt(s20, s50) && w.coins == 0.0 {
      assert v.coins * p == w.cash;
    } else if Lt(s20, s50) && w.coins > 0.0 {
      assert v.cash > 0.0;
    }
  }

  /** The buy fires on the state SMA20 > SMA50, not on a crossing edge; a
      holding account is left alone while the state persists. */
  lemma HoldingIgnoresGoldenState(w: Wallet, p: real, s20: Option<real>, s50: Option<real>)
    requires p > 0.0 && w.coins > 0.0 && Gt(s20, s50)
    ensures Step(w, p, s20, s50) == w
  {
  }

  /** After every iteration the account is all cash or all coins. */
  lemma {:induction false} RunAllInOne(prices: seq<real>, sma20: seq<Option<real>>, sma50: seq<Option<real>>, k: nat)
    requires Aligned(prices, sma20, sma50)
    requires k <= FirstIndex || k <= |prices|
    ensures AllInOne(Run(prices, sma20, sma50, k))
  {
    if k > FirstIndex {
      RunAllInOne(prices, sma20, sma50, k - 1);
      StepConservesValue(Run(prices, sma20, sma50, k - 1), prices[k - 1], sma20[k - 1], sma50[k - 1]);
    }
  }

  /** The reported result is positive. */
  lemma OutcomePositive(prices: seq<real>, sma20: seq<Option<real>>, sma50: seq<Option<real>>)
    requires Aligned(prices, sma20, sma50)
    ensures Outcome(prices, sma20, sma50) > 0.0
  {
    var w := Run(prices, sma20, sma50, |prices|);
    RunAllInOne(prices, sma20, sma50, |prices|);
    if w.cash <= 0.0 {
      assert w.coins * prices[|prices| - 1] > 0.0;
    }
  }

  /** With at most 50 prices the loop does not run: the result is the
      starting cash. */
  lemma ShortSeriesKeepsCash(prices: seq<real>, sma20: seq<Option<real>>, sma50: seq<Option<real>>)
    requires Aligned(prices, sma20, sma50) && |prices| <= FirstIndex
    ensures Outcome(prices, sma20, sma50) == StartingCash
  {
  }

  /** If SMA20 is never above SMA50 from index 50 on, nothing is ever bought
      and the result is exactly the starting cash. */
  lemma NoGoldenStateKeepsCash(prices: seq<real>, sma20: seq<Option<real>>, sma50: seq<Option<real>>)
    requires Aligned(prices, sma20, sma50)
    requires forall i :: FirstIndex <= i < |prices| ==> !Gt(sma20[i], sma50[i])
    ensures Outcome(prices, sma20, sma50) == StartingCash
  {
    StaysInCash(prices, sma20, sma50, |prices|);
  }

  lemma {:induction false} StaysInCash(prices: seq<real>, sma20: seq<Option<real>>, sma50: seq<Option<real>>, k: nat)
    requires Aligned(prices, sma20, sma50)
    requires k <= FirstIndex || k <= |prices|
    requires forall i :: FirstIndex <= i < |prices| ==> !Gt(sma20[i], sma50[i])
    ensures Run(prices, sma20, sma50, k) == Wallet(StartingCash, 0.0)
  {
    if k > FirstIndex {
      StaysInCash(prices, sma20, sma50, k - 1);
    }
  }

  /** On the columns `add_indicators` computes, both moving averages are
      defined at every index the loop visits, so its comparisons never meet
      an undefined entry. */
  lemma LoopSeesDefinedAverages(prices: seq<real>, i: nat)
    requires FirstIndex <= i < |prices|
    ensures Indicators.Sma(prices, Indicators.SmaShort)[i].Some?
    ensures Indicators.Sma(prices, Indicators.SmaLong)[i].Some?
  {
  }
}
