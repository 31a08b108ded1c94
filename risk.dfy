/** The stop-loss / take-profit tool: the reward-to-risk ratio of a trade. */
module Risk {
  import opened Series

  /** The ratio shown by the tool (app.py:184-187), computed only when the
      entry, stop-loss and take-profit prices are all positive; None when
      the computation is skipped. */
  function RiskReward(entry: real, stopLoss: real, takeProfit: real): (r: Option<real>)
    requires entry > 0.0 && stopLoss > 0.0 && takeProfit > 0.0 ==> entry != stopLoss
    ensures r.Some? <==> entry > 0.0 && stopLoss > 0.0 && takeProfit > 0.0
    ensures r.Some? ==> r.value * (entry - stopLoss) == takeProfit - entry
  {
    if entry > 0.0 && stopLoss > 0.0 && takeProfit > 0.0 then
      var risk := entry - stopLoss;
      var reward := takeProfit - entry;
      Some(reward / risk)
    else
      None
  }

  /** For a long setup (stop below entry) the ratio is at least k exactly
      when the reward is at least k times the risk. */
  lemma LongRatioAtLeast(entry: real, stopLoss: real, takeProfit: real, k: real)
    requires 0.0 < stopLoss < entry && takeProfit > 0.0
    ensures RiskReward(entry, stopLoss, takeProfit).value >= k <==>
              takeProfit - entry >= k * (entry - stopLoss)
  {
    var risk, r := entry - stopLoss, RiskReward(entry, stopLoss, takeProfit).value;
    assert r * risk == takeProfit - entry;
    if r >= k {
      assert r * risk >= k * risk;
    } else {
      assert r * risk < k * risk;
    }
  }

  /** Entry 100, stop-loss 90, take-profit 130: risk 10, reward 30, ratio 3. */
  lemma RatioExample()
    ensures RiskReward(100.0, 90.0, 130.0) == Some(3.0)
  {
  }
}
