/** The signal engine `ai_signal`: four rules scored on the last row of the
    frame, and a BUY / SELL / HOLD label read off the score. */
module Signal {
  import opened Series
  import opened Indicators

  datatype Label = Buy | Sell | Hold

  const Oversold: real := 30.0
  const Overbought: real := 70.0

  /** Trend rule: SMA20 above SMA50. */
  predicate Trend(row: Row)
    ensures Trend(row) ==> row.sma20.Some? && row.sma50.Some?
  {
    Gt(row.sma20, row.sma50)
  }

  /** Momentum rule: price above EMA20. */
  predicate Momentum(row: Row)
    ensures Momentum(row) ==> row.ema20.Some?
  {
    Gt(Some(row.price), row.ema20)
  }

  /** RSI below 30. */
  predicate IsOversold(row: Row)
    ensures IsOversold(row) ==> row.rsi.Some? && row.rsi.value < Oversold
  {
    Lt(row.rsi, Some(Oversold))
  }

  /** RSI above 70. */
  predicate IsOverbought(row: Row)
    ensures IsOverbought(row) ==> row.rsi.Some? && row.rsi.value > Overbought
  {
    Gt(row.rsi, Some(Overbought))
  }

  function Point(b: bool): int {
    if b then 1 else 0
  }

  /** The score of a row: one point per bullish rule, minus one when
      overbought. An undefined operand never scores. */
  function Score(row: Row): (s: int)
    ensures -1 <= s <= 3
    ensures s == 3 <==> Trend(row) && Momentum(row) && IsOversold(row)
    ensures s == -1 <==> !Trend(row) && !Momentum(row) && IsOverbought(row)
  {
    Point(Trend(row)) + Point(Momentum(row)) + Point(IsOversold(row)) - Point(IsOverbought(row))
  }

  /** The label for a score (app.py:91-95). */
  function Classify(score: int): (l: Label)
    ensures l == Buy <==> score >= 2
    ensures l == Sell <==> score <= -1
    ensures l == Hold <==> -1 < score < 2
  {
    if score >= 2 then Buy else if score <= -1 then Sell else Hold
  }

  /** `ai_signal` (app.py:75-95): the score is built up rule by rule on the
      last row of the frame. */
  method AiSignal(f: Frame) returns (verdict: Label, score: int)
    requires f.HasIndicators() && |f.price| > 0
    ensures score == Score(f.Latest())
    ensures verdict == Classify(score)
  {
    var last := |f.price| - 1;
    score := 0;
    if Gt(f.sma20[last], f.sma50[last]) {
      score := score + 1;
    }
    if Gt(Some(f.price[last]), f.ema20[last]) {
      score := score + 1;
    }
    if Lt(f.rsi[last], Some(Oversold)) {
      score := score + 1;
    }
    if Gt(f.rsi[last], Some(Overbought)) {
      score := score - 1;
    }
    verdict := Classify(score);
  }

  /** At most one of the two RSI adjustments applies. */
  lemma RsiAdjustmentsExclusive(row: Row)
    ensures !(IsOversold(row) && IsOverbought(row))
  {
  }

  /** The rules behind each label: BUY needs two bullish rules and no
      overbought RSI; SELL is an overbought RSI with neither trend nor
      momentum; everything else is HOLD. */
  lemma LabelRules(row: Row)
    ensures Classify(Score(row)) == Buy <==>
              !IsOverbought(row) &&
              Point(Trend(row)) + Point(Momentum(row)) + Point(IsOversold(row)) >= 2
    ensures Classify(Score(row)) == Sell <==>
              IsOverbought(row) && !Trend(row) && !Momentum(row)
  {
    RsiAdjustmentsExclusive(row);
  }

  /** On a series of at most 14 prices neither SMA50 nor RSI is defined, so
      only the momentum rule can score and the signal is always HOLD. */
  lemma ShortSeriesHolds(prices: seq<real>)
    requires 0 < |prices| <= RsiPeriod
    ensures Classify(Score(RowAt(prices, |prices| - 1))) == Hold
  {
    RsiUndefinedEarly(prices, |prices| - 1);
  }

  /** Below 50 prices SMA50 is undefined and the trend rule never scores:
      BUY then requires both momentum and an oversold RSI. */
  lemma NoTrendBeforeFifty(prices: seq<real>)
    requires 0 < |prices| < SmaLong
    ensures !Trend(RowAt(prices, |prices| - 1))
    ensures Classify(Score(RowAt(prices, |prices| - 1))) == Buy <==>
              Momentum(RowAt(prices, |prices| - 1)) && IsOversold(RowAt(prices, |prices| - 1))
  {
    LabelRules(RowAt(prices, |prices| - 1));
  }

  /** The worked examples of the scoring rule. */
  lemma ScoreExamples()
    ensures var r := Row(106.0, Some(105.0), Some(100.0), Some(104.0), Some(50.0));
            Score(r) == 2 && Classify(Score(r)) == Buy
    ensures var r := Row(100.0, Some(99.0), Some(100.0), Some(104.0), Some(75.0));
            Score(r) == -1 && Classify(Score(r)) == Sell
    ensures var r := Row(104.0, Some(100.0), Some(100.0), Some(104.0), Some(50.0));
            Score(r) == 0 && Classify(Score(r)) == Hold
  {
  }
}
