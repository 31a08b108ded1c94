/** The indicator engine: the columns `add_indicators` attaches to the price
    frame (SMA20, SMA50, EMA20 and a 14-period RSI), each aligned index for
    index with the price column. */
module Indicators {
  import opened Series

  const SmaShort: nat := 20
  const SmaLong: nat := 50
  const EmaSpan: nat := 20
  const RsiPeriod: nat := 14

  // ---------------------------------------------------------------- sums

  function Sum(s: seq<real>): real {
    if |s| == 0 then 0.0 else Sum(s[..|s| - 1]) + s[|s| - 1]
  }

  function Mean(s: seq<real>): real
    requires |s| > 0
  {
    Sum(s) / (|s| as real)
  }

  lemma {:induction false} SumAtLeast(s: seq<real>, lo: real)
    requires forall k :: 0 <= k < |s| ==> lo <= s[k]
    ensures lo * (|s| as real) <= Sum(s)
  {
    if |s| > 0 {
      SumAtLeast(s[..|s| - 1], lo);
    }
  }

  lemma {:induction false} SumAtMost(s: seq<real>, hi: real)
    requires forall k :: 0 <= k < |s| ==> s[k] <= hi
    ensures Sum(s) <= hi * (|s| as real)
  {
    if |s| > 0 {
      SumAtMost(s[..|s| - 1], hi);
    }
  }

  /** A sum of non-negative numbers is zero exactly when every term is. */
  lemma {:induction false} SumZeroIff(s: seq<real>)
    requires forall k :: 0 <= k < |s| ==> 0.0 <= s[k]
    ensures Sum(s) == 0.0 <==> forall k :: 0 <= k < |s| ==> s[k] == 0.0
  {
    if |s| > 0 {
      var init := s[..|s| - 1];
      SumZeroIff(init);
      SumAtLeast(init, 0.0);
      assert forall k :: 0 <= k < |init| ==> init[k] == s[k];
    }
  }

  /** The mean of a window lies between any bounds of its values. */
  lemma MeanWithin(s: seq<real>, lo: real, hi: real)
    requires |s| > 0
    requires forall k :: 0 <= k < |s| ==> lo <= s[k] <= hi
    ensures lo <= Mean(s) <= hi
  {
    SumAtLeast(s, lo);
    SumAtMost(s, hi);
    var n := |s| as real;
    assert Mean(s) * n == Sum(s);
  }

  // ---------------------------------------------------- rolling windows

  /** The w entries of s ending at index i. */
  function Window<T>(s: seq<T>, w: nat, i: int): (r: seq<T>)
    requires w > 0 && w - 1 <= i < |s|
    ensures |r| == w
  {
    s[i - w + 1..i + 1]
  }

  /** pandas `rolling(w).mean()` with its default `min_periods = w`: the
      mean of the w entries ending at i, undefined while the window is not
      full or holds an undefined entry. */
  function RollingMean(xs: seq<Option<real>>, w: nat): (r: seq<Option<real>>)
    requires w > 0
    ensures |r| == |xs|
    ensures forall i :: 0 <= i < |xs| && i < w - 1 ==> r[i] == None
    ensures forall i :: w - 1 <= i < |xs| ==> (r[i].Some? <==> AllDefined(Window(xs, w, i)))
  {
    seq(|xs|, i requires 0 <= i < |xs| =>
      if i >= w - 1 && AllDefined(Window(xs, w, i))
      then Some(Mean(Values(Window(xs, w, i))))
      else None)
  }

  /** A rolling mean of entries that are all at least lo is at least lo. */
  lemma RollingMeanAtLeast(xs: seq<Option<real>>, w: nat, lo: real)
    requires w > 0
    requires forall k :: 0 <= k < |xs| && xs[k].Some? ==> lo <= xs[k].value
    ensures forall i :: 0 <= i < |xs| && RollingMean(xs, w)[i].Some? ==> lo <= RollingMean(xs, w)[i].value
  {
    forall i | w - 1 <= i < |xs| && AllDefined(Window(xs, w, i))
      ensures lo <= Mean(Values(Window(xs, w, i)))
    {
      var v := Values(Window(xs, w, i));
      assert forall k :: 0 <= k < |v| ==> xs[i - w + 1 + k] == Some(v[k]);
      SumAtLeast(v, lo);
    }
  }

  /** A rolling mean of entries that are all at most hi is at most hi. */
  lemma RollingMeanAtMost(xs: seq<Option<real>>, w: nat, hi: real)
    requires w > 0
    requires forall k :: 0 <= k < |xs| && xs[k].Some? ==> xs[k].value <= hi
    ensures forall i :: 0 <= i < |xs| && RollingMean(xs, w)[i].Some? ==> RollingMean(xs, w)[i].value <= hi
  {
    forall i | w - 1 <= i < |xs| && AllDefined(Window(xs, w, i))
      ensures Mean(Values(Window(xs, w, i))) <= hi
    {
      var v := Values(Window(xs, w, i));
      assert forall k :: 0 <= k < |v| ==> xs[i - w + 1 + k] == Some(v[k]);
      SumAtMost(v, hi);
    }
  }

  /** The simple moving average over w prices (app.py:59-60). */
  function Sma(prices: seq<real>, w: nat): (r: seq<Option<real>>)
    requires w > 0
    ensures |r| == |prices|
    ensures forall i :: 0 <= i < |prices| ==> (r[i].Some? <==> i >= w - 1)
    ensures forall i :: w - 1 <= i < |prices| ==>
              r[i] == Some(Mean(prices[i - w + 1..i + 1]))
  {
    WindowsOfDefined(prices, w);
    RollingMean(Defined(prices), w)
  }

  lemma WindowsOfDefined(prices: seq<real>, w: nat)
    requires w > 0
    ensures forall i :: w - 1 <= i < |prices| ==>
              AllDefined(Window(Defined(prices), w, i)) &&
              Values(Window(Defined(prices), w, i)) == prices[i - w + 1..i + 1]
  {
    forall i | w - 1 <= i < |prices|
      ensures AllDefined(Window(Defined(prices), w, i))
      ensures Values(Window(Defined(prices), w, i)) == prices[i - w + 1..i + 1]
    {
      ValuesOfDefined(prices, i - w + 1, i + 1);
    }
  }

  /** A series shorter than the window has no defined moving average. */
  lemma SmaUndefinedOnShortSeries(prices: seq<real>, w: nat)
    requires w > 0 && |prices| < w
    ensures forall i :: 0 <= i < |prices| ==> Sma(prices, w)[i] == None
  {
  }

  /** Where it is defined, the moving average lies between the lowest and
      the highest price of its window. */
  lemma SmaWithinWindow(prices: seq<real>, w: nat, i: nat, lo: real, hi: real)
    requires w > 0 && w - 1 <= i < |prices|
    requires forall k :: i - w + 1 <= k <= i ==> lo <= prices[k] <= hi
    ensures Sma(prices, w)[i].Some?
    ensures lo <= Sma(prices, w)[i].value <= hi
  {
    var win := prices[i - w + 1..i + 1];
    assert forall k :: 0 <= k < |win| ==> win[k] == prices[i - w + 1 + k];
    MeanWithin(win, lo, hi);
  }

  // ------------------------------------------------------------------ EMA

  /** The decay of pandas `ewm(span = 20)`: 1 - alpha with alpha = 2 / (span + 1). */
  const EmaDecay: real := 1.0 - 2.0 / (EmaSpan as real + 1.0)

  lemma DecayValue()
    ensures EmaDecay == 19.0 / 21.0
  {
  }

  /** Sum of the weights `EmaDecay^k` for k = 0..i (the `adjust = True` form). */
  function EmaWeight(i: nat): (r: real)
    ensures r >= 1.0
  {
    if i == 0 then 1.0 else 1.0 + EmaDecay * EmaWeight(i - 1)
  }

  /** Weighted sum of prices[0..i], price i - k weighted by `EmaDecay^k`. */
  function EmaNumerator(prices: seq<real>, i: nat): real
    requires i < |prices|
  {
    if i == 0 then prices[0] else prices[i] + EmaDecay * EmaNumerator(prices, i - 1)
  }

  /** The exponential moving average of span 20 (app.py:61): defined from
      index 0 on, equal to the first price at index 0. */
  function Ema(prices: seq<real>): (r: seq<Option<real>>)
    ensures |r| == |prices| && AllDefined(r)
    ensures |prices| > 0 ==> r[0] == Some(prices[0])
  {
    var r := seq(|prices|, i requires 0 <= i < |prices| =>
      Some(EmaNumerator(prices, i) / EmaWeight(i)));
    assert |prices| > 0 ==> r[0] == Some(prices[0]) by {
      if |prices| > 0 {
        assert EmaWeight(0) == 1.0;
        assert EmaNumerator(prices, 0) == prices[0];
        assert r[0] == Some(EmaNumerator(prices, 0) / EmaWeight(0));
      }
    }
    r
  }

  lemma {:induction false} EmaNumeratorWithin(prices: seq<real>, i: nat, lo: real, hi: real)
    requires i < |prices|
    requires forall k :: 0 <= k <= i ==> lo <= prices[k] <= hi
    ensures lo * EmaWeight(i) <= EmaNumerator(prices, i) <= hi * EmaWeight(i)
  {
    var w, n := EmaWeight(i), EmaNumerator(prices, i);
    if i > 0 {
      EmaNumeratorWithin(prices, i - 1, lo, hi);
      DecayValue();
      DecayedBounds(EmaDecay, prices[i], EmaWeight(i - 1), EmaNumerator(prices, i - 1), w, n, lo, hi);
    } else {
      DecayedBounds(EmaDecay, prices[0], 0.0, 0.0, w, n, lo, hi);
    }
  }

  /** Adding a value within [lo, hi] with weight 1 to decayed sums keeps
      the sum within the bounds times the weight. */
  lemma DecayedBounds(d: real, x: real, w0: real, n0: real, w: real, n: real, lo: real, hi: real)
    requires d >= 0.0 && lo <= x <= hi && lo * w0 <= n0 <= hi * w0
    requires w == 1.0 + d * w0 && n == x + d * n0
    ensures lo * w <= n <= hi * w
  {
    var w, n := w0, n0;
    assert d * (lo * w) <= d * n <= d * (hi * w);
    assert lo * (1.0 + d * w) == lo + d * (lo * w);
    assert hi * (1.0 + d * w) == hi + d * (hi * w);
  }

  /** The EMA at i is a weighted average of prices[0..i]: it lies between
      any bounds of those prices. */
  lemma EmaWithinHistory(prices: seq<real>, i: nat, lo: real, hi: real)
    requires i < |prices|
    requires forall k :: 0 <= k <= i ==> lo <= prices[k] <= hi
    ensures lo <= Ema(prices)[i].value <= hi
  {
    EmaNumeratorWithin(prices, i, lo, hi);
    QuotientWithin(EmaNumerator(prices, i), EmaWeight(i), lo, hi);
  }

  lemma QuotientWithin(n: real, w: real, lo: real, hi: real)
    requires w > 0.0 && lo * w <= n <= hi * w
    ensures lo <= n / w <= hi
  {
    DivisionTimes(n, w);
    var q := n / w;
    assert (q - lo) * w == n - lo * w;
    assert (hi - q) * w == hi * w - n;
  }

  /** The recursive form of the adjusted EMA: each step moves the previous
      value toward the new price by the fraction 1 / EmaWeight(i). */
  lemma EmaRecurrence(prices: seq<real>, i: nat)
    requires 0 < i < |prices|
    ensures Ema(prices)[i].value ==
              Ema(prices)[i - 1].value + (prices[i] - Ema(prices)[i - 1].value) / EmaWeight(i)
  {
    var w0, n0 := EmaWeight(i - 1), EmaNumerator(prices, i - 1);
    var w, n := EmaWeight(i), EmaNumerator(prices, i);
    assert w == 1.0 + EmaDecay * w0 && n == prices[i] + EmaDecay * n0;
    DivisionTimes(n0, w0);
    DivisionTimes(n, w);
    AdjustedStep(prices[i], EmaDecay, n0 / w0, w0, n0, n / w, w, n);
  }

  lemma DivisionTimes(n: real, w: real)
    requires w > 0.0
    ensures (n / w) * w == n
  {
  }

  /** One step of a weighted average: with n0 = prev * w0, adding price x
      with weight 1 to the decayed sums gives prev + (x - prev) / w. */
  lemma AdjustedStep(x: real, d: real, prev: real, w0: real, n0: real, cur: real, w: real, n: real)
    requires prev * w0 == n0 && w == 1.0 + d * w0 && n == x + d * n0 && w > 0.0 && cur * w == n
    ensures cur == prev + (x - prev) / w
  {
    assert d * n0 == (d * w0) * prev;
    assert cur * w == x + (w - 1.0) * prev;
    var step := (x - prev) / w;
    DivisionTimes(x - prev, w);
    assert (prev + step) * w == prev * w + step * w;
    CancelPositive(cur, prev + step, w);
  }

  /** The EMA at i lies between its previous value and the new price. */
  lemma EmaMovesTowardPrice(prices: seq<real>, i: nat)
    requires 0 < i < |prices|
    ensures var prev, cur := Ema(prices)[i - 1].value, Ema(prices)[i].value;
            (prev <= prices[i] ==> prev <= cur <= prices[i]) &&
            (prices[i] <= prev ==> prices[i] <= cur <= prev)
  {
    EmaRecurrence(prices, i);
    var prev, w := Ema(prices)[i - 1].value, EmaWeight(i);
    var delta := prices[i] - prev;
    var frac := delta / w;
    assert frac * w == delta;
    if delta >= 0.0 {
      assert 0.0 <= frac <= delta by {
        assert frac * w <= delta * w;
      }
    } else {
      assert delta <= frac <= 0.0 by {
        assert delta * w <= frac * w;
      }
    }
  }

  // ------------------------------------------------------------------ RSI

  /** The first difference of the prices: the change from the previous
      price, undefined at index 0. Adding it back to the previous price
      gives the price. */
  function Diff(prices: seq<real>): (d: seq<Option<real>>)
    ensures |d| == |prices|
    ensures |prices| > 0 ==> d[0] == None
    ensures forall i :: 0 < i < |prices| ==> d[i].Some? && prices[i - 1] + d[i].value == prices[i]
  {
    seq(|prices|, i requires 0 <= i < |prices| =>
      if i == 0 then None else Some(prices[i] - prices[i - 1]))
  }

  /** Clipping from below at 0: each defined entry becomes the larger of
      itself and 0; an undefined entry stays undefined. */
  function ClipLower(d: seq<Option<real>>): (r: seq<Option<real>>)
    ensures |r| == |d|
    ensures forall i :: 0 <= i < |d| ==> (r[i].Some? <==> d[i].Some?)
    ensures forall i :: 0 <= i < |d| && d[i].Some? ==>
              r[i].value >= 0.0 && r[i].value >= d[i].value &&
              (r[i].value == d[i].value || r[i].value == 0.0)
  {
    seq(|d|, i requires 0 <= i < |d| =>
      if d[i].None? then None else Some(if d[i].value < 0.0 then 0.0 else d[i].value))
  }

  /** Clipping from above at 0: each defined entry becomes the smaller of
      itself and 0; an undefined entry stays undefined. */
  function ClipUpper(d: seq<Option<real>>): (r: seq<Option<real>>)
    ensures |r| == |d|
    ensures forall i :: 0 <= i < |d| ==> (r[i].Some? <==> d[i].Some?)
    ensures forall i :: 0 <= i < |d| && d[i].Some? ==>
              r[i].value <= 0.0 && r[i].value <= d[i].value &&
              (r[i].value == d[i].value || r[i].value == 0.0)
  {
    seq(|d|, i requires 0 <= i < |d| =>
      if d[i].None? then None else Some(if d[i].value > 0.0 then 0.0 else d[i].value))
  }

  /** Unary minus on a column: undefined stays undefined, and a defined
      entry and its negation add up to 0. */
  function Negate(d: seq<Option<real>>): (r: seq<Option<real>>)
    ensures |r| == |d|
    ensures forall i :: 0 <= i < |d| ==> (r[i].Some? <==> d[i].Some?)
    ensures forall i :: 0 <= i < |d| && d[i].Some? ==> r[i].value + d[i].value == 0.0
  {
    seq(|d|, i requires 0 <= i < |d| => if d[i].None? then None else Some(-d[i].value))
  }

  /** The average gain (app.py:64): the rolling 14-mean of the price
      changes clipped from below at 0. Undefined before index 14, since the
      first change is undefined. */
  function AvgGain(prices: seq<real>): (r: seq<Option<real>>)
    ensures |r| == |prices|
    ensures forall i :: 0 <= i < |prices| && i < RsiPeriod ==> r[i] == None
  {
    FirstWindowsUndefined(prices);
    RollingMean(ClipLower(Diff(prices)), RsiPeriod)
  }

  /** The average loss (app.py:65): the negation of the rolling 14-mean of
      the price changes clipped from above at 0 (the minus is applied after
      the mean). Undefined before index 14. */
  function AvgLoss(prices: seq<real>): (r: seq<Option<real>>)
    ensures |r| == |prices|
    ensures forall i :: 0 <= i < |prices| && i < RsiPeriod ==> r[i] == None
  {
    FirstWindowsUndefined(prices);
    Negate(RollingMean(ClipUpper(Diff(prices)), RsiPeriod))
  }

  /** The first full window of clipped changes holds the undefined change at 0. */
  lemma FirstWindowsUndefined(prices: seq<real>)
    ensures RsiPeriod - 1 < |prices| ==>
              !AllDefined(Window(ClipLower(Diff(prices)), RsiPeriod, RsiPeriod - 1)) &&
              !AllDefined(Window(ClipUpper(Diff(prices)), RsiPeriod, RsiPeriod - 1))
  {
    if RsiPeriod - 1 < |prices| {
      assert Window(ClipLower(Diff(prices)), RsiPeriod, RsiPeriod - 1)[0] == None;
      assert Window(ClipUpper(Diff(prices)), RsiPeriod, RsiPeriod - 1)[0] == None;
    }
  }

  /** The RSI of one pair of averages (app.py:66-67): 100 minus 100 over
      one plus their ratio, in IEEE arithmetic: a positive gain over a zero
      loss is +inf (RSI 100), and 0/0 is NaN (RSI undefined). */
  function RsiPoint(g: Option<real>, l: Option<real>): (r: Option<real>)
    requires g.Some? ==> g.value >= 0.0
    requires l.Some? ==> l.value >= 0.0
    ensures r.None? <==> g.None? || l.None? || (g.value == 0.0 && l.value == 0.0)
    ensures r.Some? ==> 0.0 <= r.value <= 100.0
    ensures r == Some(100.0) <==> g.Some? && l.Some? && l.value == 0.0 && g.value > 0.0
  {
    if g.None? || l.None? then None
    else if l.value > 0.0 then
      RsiFormula(g.value, l.value);
      Some(100.0 - 100.0 / (1.0 + g.value / l.value))
    else if g.value > 0.0 then Some(100.0)
    else None
  }

  /** With a positive loss the formula is 100 * gain / (gain + loss), in [0, 100). */
  lemma RsiFormula(g: real, l: real)
    requires g >= 0.0 && l > 0.0
    ensures 100.0 - 100.0 / (1.0 + g / l) == 100.0 * g / (g + l)
    ensures 0.0 <= 100.0 * g / (g + l) < 100.0
  {
    var u := 1.0 + g / l;
    assert u * l == l + (g / l) * l == g + l;
    var q, v := 100.0 / u, 100.0 * l / (g + l);
    assert q * u == 100.0 && v * (g + l) == 100.0 * l;
    assert q * (g + l) == q * (u * l) == (q * u) * l == 100.0 * l;
    CancelPositive(q, v, g + l);
    var a, b := 100.0 * l / (g + l), 100.0 * g / (g + l);
    assert a * (g + l) == 100.0 * l && b * (g + l) == 100.0 * g;
    assert (100.0 - a) * (g + l) == b * (g + l);
    CancelPositive(100.0 - a, b, g + l);
    assert 100.0 * g / (g + l) < 100.0 by {
      assert 100.0 * g < 100.0 * (g + l);
    }
  }

  /** The two averages of the RSI are never negative. */
  lemma AveragesNonNegative(prices: seq<real>)
    ensures forall i :: 0 <= i < |prices| && AvgGain(prices)[i].Some? ==> AvgGain(prices)[i].value >= 0.0
    ensures forall i :: 0 <= i < |prices| && AvgLoss(prices)[i].Some? ==> AvgLoss(prices)[i].value >= 0.0
  {
    RollingMeanAtLeast(ClipLower(Diff(prices)), RsiPeriod, 0.0);
    RollingMeanAtMost(ClipUpper(Diff(prices)), RsiPeriod, 0.0);
  }

  /** The RSI column (app.py:66-67): the RSI of the two averages at each index. */
  function Rsi(prices: seq<real>): (r: seq<Option<real>>)
    ensures |r| == |prices|
    ensures forall i :: 0 <= i < |prices| && i < RsiPeriod ==> r[i] == None
    ensures forall i :: 0 <= i < |prices| && r[i].Some? ==> 0.0 <= r[i].value <= 100.0
  {
    AveragesNonNegative(prices);
    seq(|prices|, i requires 0 <= i < |prices| => RsiPoint(AvgGain(prices)[i], AvgLoss(prices)[i]))
  }

  /** The RSI formula on one pair of averages: with a positive average loss
      it is 100 * gain / (gain + loss), in [0, 100); with no loss it is 100
      when there was a gain and undefined when the window was flat. */
  lemma RsiPointRange(g: real, l: real)
    requires g >= 0.0 && l >= 0.0
    ensures l > 0.0 ==> RsiPoint(Some(g), Some(l)) == Some(100.0 * g / (g + l))
    ensures l > 0.0 ==> 0.0 <= 100.0 * g / (g + l) < 100.0
    ensures l == 0.0 && g > 0.0 ==> RsiPoint(Some(g), Some(l)) == Some(100.0)
    ensures l == 0.0 && g == 0.0 ==> RsiPoint(Some(g), Some(l)) == None
  {
    if l > 0.0 {
      RsiFormula(g, l);
    }
  }

  lemma CancelPositive(x: real, y: real, c: real)
    requires c > 0.0 && x * c == y * c
    ensures x == y
  {
  }

  /** The price change entering the RSI window at position j of the window ending at i. */
  function Change(prices: seq<real>, i: nat, j: nat): real
    requires RsiPeriod <= i < |prices| && j < RsiPeriod
  {
    prices[i - RsiPeriod + 1 + j] - prices[i - RsiPeriod + j]
  }

  /** From index 14 on, both RSI averages are defined and are the means of
      the clipped price changes of the window. */
  lemma RsiAverages(prices: seq<real>, i: nat)
    requires RsiPeriod <= i < |prices|
    ensures AllDefined(Window(ClipLower(Diff(prices)), RsiPeriod, i))
    ensures AllDefined(Window(ClipUpper(Diff(prices)), RsiPeriod, i))
    ensures forall j :: 0 <= j < RsiPeriod ==>
              Values(Window(ClipLower(Diff(prices)), RsiPeriod, i))[j]
                == (if Change(prices, i, j) < 0.0 then 0.0 else Change(prices, i, j))
    ensures forall j :: 0 <= j < RsiPeriod ==>
              Values(Window(ClipUpper(Diff(prices)), RsiPeriod, i))[j]
                == (if Change(prices, i, j) > 0.0 then 0.0 else Change(prices, i, j))
    ensures AvgGain(prices)[i] == Some(Mean(Values(Window(ClipLower(Diff(prices)), RsiPeriod, i))))
    ensures AvgLoss(prices)[i] == Some(-Mean(Values(Window(ClipUpper(Diff(prices)), RsiPeriod, i))))
  {
    GainWindow(prices, i);
    LossWindow(prices, i);
  }

  lemma GainWindow(prices: seq<real>, i: nat)
    requires RsiPeriod <= i < |prices|
    ensures AllDefined(Window(ClipLower(Diff(prices)), RsiPeriod, i))
    ensures forall j :: 0 <= j < RsiPeriod ==>
              Values(Window(ClipLower(Diff(prices)), RsiPeriod, i))[j]
                == (if Change(prices, i, j) < 0.0 then 0.0 else Change(prices, i, j))
    ensures AvgGain(prices)[i] == Some(Mean(Values(Window(ClipLower(Diff(prices)), RsiPeriod, i))))
  {
    var up := ClipLower(Diff(prices));
    var gains := seq(RsiPeriod, j requires 0 <= j < RsiPeriod =>
                   if Change(prices, i, j) < 0.0 then 0.0 else Change(prices, i, j));
    assert forall k :: 0 <= k < RsiPeriod ==> up[i - RsiPeriod + 1 + k] == Some(gains[k]) by {
      var changes := ChangesOfWindow(prices, i);
      ClippedWindow(Diff(prices), i - RsiPeriod + 1, changes);
    }
    FullWindow(up, RsiPeriod, i, gains);
    assert AvgGain(prices) == RollingMean(up, RsiPeriod);
  }

  lemma LossWindow(prices: seq<real>, i: nat)
    requires RsiPeriod <= i < |prices|
    ensures AllDefined(Window(ClipUpper(Diff(prices)), RsiPeriod, i))
    ensures forall j :: 0 <= j < RsiPeriod ==>
              Values(Window(ClipUpper(Diff(prices)), RsiPeriod, i))[j]
                == (if Change(prices, i, j) > 0.0 then 0.0 else Change(prices, i, j))
    ensures AvgLoss(prices)[i] == Some(-Mean(Values(Window(ClipUpper(Diff(prices)), RsiPeriod, i))))
  {
    var down := ClipUpper(Diff(prices));
    var losses := seq(RsiPeriod, j requires 0 <= j < RsiPeriod =>
                    if Change(prices, i, j) > 0.0 then 0.0 else Change(prices, i, j));
    assert forall k :: 0 <= k < RsiPeriod ==> down[i - RsiPeriod + 1 + k] == Some(losses[k]) by {
      var changes := ChangesOfWindow(prices, i);
      ClippedWindow(Diff(prices), i - RsiPeriod + 1, changes);
    }
    FullWindow(down, RsiPeriod, i, losses);
    NegatedAt(RollingMean(down, RsiPeriod), i);
    assert AvgLoss(prices) == Negate(RollingMean(down, RsiPeriod));
  }

  lemma NegatedAt(xs: seq<Option<real>>, i: nat)
    requires i < |xs| && xs[i].Some?
    ensures Negate(xs)[i] == Some(-xs[i].value)
  {
  }

  /** The 14 price changes of the window ending at i, as they appear in the
      first difference. */
  lemma ChangesOfWindow(prices: seq<real>, i: nat) returns (changes: seq<real>)
    requires RsiPeriod <= i < |prices|
    ensures |changes| == RsiPeriod
    ensures forall k :: 0 <= k < RsiPeriod ==> changes[k] == Change(prices, i, k)
    ensures forall k :: 0 <= k < RsiPeriod ==> Diff(prices)[i - RsiPeriod + 1 + k] == Some(changes[k])
  {
    changes := seq(RsiPeriod, j requires 0 <= j < RsiPeriod => Change(prices, i, j));
  }

  /** Clipping a run of defined changes clips each of them. */
  lemma ClippedWindow(d: seq<Option<real>>, lo: nat, changes: seq<real>)
    requires lo + |changes| <= |d|
    requires forall k :: 0 <= k < |changes| ==> d[lo + k] == Some(changes[k])
    ensures forall k :: 0 <= k < |changes| ==>
              ClipLower(d)[lo + k] == Some(if changes[k] < 0.0 then 0.0 else changes[k])
    ensures forall k :: 0 <= k < |changes| ==>
              ClipUpper(d)[lo + k] == Some(if changes[k] > 0.0 then 0.0 else changes[k])
  {
    forall k | 0 <= k < |changes|
      ensures ClipLower(d)[lo + k] == Some(if changes[k] < 0.0 then 0.0 else changes[k])
      ensures ClipUpper(d)[lo + k] == Some(if changes[k] > 0.0 then 0.0 else changes[k])
    {
      assert d[lo + k] == Some(changes[k]);
      ClippedAt(d, lo + k);
    }
  }

  /** The two clippings of one defined change. */
  lemma ClippedAt(d: seq<Option<real>>, m: nat)
    requires m < |d| && d[m].Some?
    ensures ClipLower(d)[m] == Some(if d[m].value < 0.0 then 0.0 else d[m].value)
    ensures ClipUpper(d)[m] == Some(if d[m].value > 0.0 then 0.0 else d[m].value)
  {
  }

  /** A window whose entries are the given defined values has those values
      and a defined rolling mean, their mean. */
  lemma FullWindow(xs: seq<Option<real>>, w: nat, i: nat, vals: seq<real>)
    requires w > 0 && w - 1 <= i < |xs| && |vals| == w
    requires forall k :: 0 <= k < w ==> xs[i - w + 1 + k] == Some(vals[k])
    ensures AllDefined(Window(xs, w, i)) && Values(Window(xs, w, i)) == vals
    ensures RollingMean(xs, w)[i] == Some(Mean(vals))
  {
    var win := Window(xs, w, i);
    forall k | 0 <= k < w
      ensures win[k] == Some(vals[k])
    {
      assert win[k] == xs[i - w + 1 + k];
    }
    assert Values(win) == vals;
  }

  /** The RSI is undefined before index 14: the first change is undefined
      and the window holds 14 changes. */
  lemma RsiUndefinedEarly(prices: seq<real>, i: nat)
    requires i < |prices| && i < RsiPeriod
    ensures Rsi(prices)[i] == None
  {
    if i == RsiPeriod - 1 {
      assert Window(ClipLower(Diff(prices)), RsiPeriod, i)[0] == None;
    }
  }

  /** Where defined, the RSI lies in [0, 100], and it is exactly 100 when
      the window holds no loss. */
  lemma RsiBounds(prices: seq<real>, i: nat)
    requires i < |prices| && Rsi(prices)[i].Some?
    ensures RsiPeriod <= i
    ensures 0.0 <= Rsi(prices)[i].value <= 100.0
    ensures Rsi(prices)[i].value == 100.0 <==> AvgLoss(prices)[i] == Some(0.0)
  {
    if i < RsiPeriod {
      RsiUndefinedEarly(prices, i);
    }
    AveragesNonNegative(prices);
    var g, l := AvgGain(prices)[i], AvgLoss(prices)[i];
    RsiPointRange(g.value, l.value);
  }

  /** From index 14 on, the RSI is undefined exactly when the price did
      not move over the window (0/0 in the source's arithmetic). */
  lemma RsiUndefinedIffFlat(prices: seq<real>, i: nat)
    requires RsiPeriod <= i < |prices|
    ensures Rsi(prices)[i] == None <==>
              forall j :: 0 <= j < RsiPeriod ==> Change(prices, i, j) == 0.0
  {
    GainWindow(prices, i);
    LossWindow(prices, i);
    var up := Values(Window(ClipLower(Diff(prices)), RsiPeriod, i));
    var down := Values(Window(ClipUpper(Diff(prices)), RsiPeriod, i));
    var changes := seq(RsiPeriod, j requires 0 <= j < RsiPeriod => Change(prices, i, j));
    FlatWindow(changes, up, down);
    AveragesNonNegative(prices);
    assert Rsi(prices)[i] == RsiPoint(Some(Mean(up)), Some(-Mean(down)));
  }

  /** The mean gain and the mean loss of a window of changes are both 0
      exactly when every change is 0. */
  lemma FlatWindow(changes: seq<real>, up: seq<real>, down: seq<real>)
    requires |changes| > 0 && |up| == |changes| && |down| == |changes|
    requires forall j :: 0 <= j < |changes| ==> up[j] == (if changes[j] < 0.0 then 0.0 else changes[j])
    requires forall j :: 0 <= j < |changes| ==> down[j] == (if changes[j] > 0.0 then 0.0 else changes[j])
    ensures Mean(up) == 0.0 && -Mean(down) == 0.0 <==> forall j :: 0 <= j < |changes| ==> changes[j] == 0.0
  {
    var negDown := seq(|down|, j requires 0 <= j < |down| => -down[j]);
    SumZeroIff(up);
    SumZeroIff(negDown);
    SumNegated(down, negDown);
    ZeroQuotient(Sum(up), |changes| as real);
    ZeroQuotient(Sum(down), |changes| as real);
    assert Mean(up) == 0.0 <==> forall j :: 0 <= j < |up| ==> up[j] == 0.0;
    assert -Mean(down) == 0.0 <==> forall j :: 0 <= j < |negDown| ==> negDown[j] == 0.0;
  }

  lemma ZeroQuotient(x: real, n: real)
    requires n > 0.0
    ensures x / n == 0.0 <==> x == 0.0
  {
  }

  lemma {:induction false} SumNegated(s: seq<real>, t: seq<real>)
    requires |t| == |s| && forall k :: 0 <= k < |s| ==> t[k] == -s[k]
    ensures Sum(t) == -Sum(s)
  {
    if |s| > 0 {
      SumNegated(s[..|s| - 1], t[..|t| - 1]);
    }
  }

  // ----------------------------------------------------------- the frame

  /** One row of the frame: the price and the four indicator entries. */
  datatype Row = Row(price: real, sma20: Option<real>, sma50: Option<real>,
                     ema20: Option<real>, rsi: Option<real>)

  /** Row i of the frame `add_indicators` builds from the prices. */
  function RowAt(prices: seq<real>, i: nat): (r: Row)
    requires i < |prices|
    ensures r.price == prices[i]
    ensures r.sma20.Some? <==> i >= SmaShort - 1
    ensures r.sma50.Some? <==> i >= SmaLong - 1
    ensures r.ema20.Some?
  {
    Row(prices[i], Sma(prices, SmaShort)[i], Sma(prices, SmaLong)[i], Ema(prices)[i], Rsi(prices)[i])
  }

  /** The price frame. A column that has not been added yet is empty. */
  class Frame {
    var price: seq<real>
    var sma20: seq<Option<real>>
    var sma50: seq<Option<real>>
    var ema20: seq<Option<real>>
    var rsi: seq<Option<real>>

    /** A frame as fetched: the price column only. */
    constructor (prices: seq<real>)
      ensures price == prices
      ensures sma20 == [] && sma50 == [] && ema20 == [] && rsi == []
    {
      price := prices;
      sma20, sma50, ema20, rsi := [], [], [], [];
    }

    /** Every indicator column is aligned with the price column. */
    predicate HasIndicators()
      reads this
    {
      |sma20| == |price| && |sma50| == |price| && |ema20| == |price| && |rsi| == |price|
    }

    /** The last row of the frame (the entry at the last index of each column). */
    function Latest(): Row
      reads this
      requires HasIndicators() && |price| > 0
    {
      var n := |price| - 1;
      Row(price[n], sma20[n], sma50[n], ema20[n], rsi[n])
    }

    /** `add_indicators` (app.py:57-69): adds the four columns in place,
        leaving the prices as they were. */
    method AddIndicators()
      modifies this
      ensures price == old(price)
      ensures sma20 == Sma(price, SmaShort) && sma50 == Sma(price, SmaLong)
      ensures ema20 == Ema(price) && rsi == Rsi(price)
      ensures HasIndicators()
      ensures forall i :: 0 <= i < |price| ==>
                RowAt(price, i) == Row(price[i], sma20[i], sma50[i], ema20[i], rsi[i])
    {
      sma20 := Sma(price, SmaShort);
      sma50 := Sma(price, SmaLong);
      ema20 := Ema(price);
      rsi := Rsi(price);
    }
  }
}
