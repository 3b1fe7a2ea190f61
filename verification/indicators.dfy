/**
  The indicator evaluators of server.js. Each maps a current reading, and the
  readings before it, to a signal `{direction, value}` for the vote tally.
  Readings are numbers; the writes to the per-request display state and the
  `reason` texts are not modelled.
*/
module Indicators {
  import opened Common
  import opened Votes

  // ---------------------------------------------------------------- RSI

  /** Math.sqrt, kept abstract: any function that is non-negative on non-negative inputs. */
  type SquareRoot = f: real -> real | forall x :: 0.0 <= x ==> 0.0 <= f(x)
    witness (x: real) => 0.0

  function SquaredDeviations(xs: seq<real>, m: real): (r: real)
    ensures r >= 0.0
  {
    if xs == [] then 0.0
    else
      var d := xs[|xs| - 1] - m;
      SquaredDeviations(xs[..|xs| - 1], m) + d * d
  }

  /** calculateVolatility: the population standard deviation of the readings. */
  function Volatility(history: seq<real>, sqrt: SquareRoot): (v: real)
    requires |history| > 0
    ensures v >= 0.0
  {
    sqrt(SquaredDeviations(history, Mean(history)) / |history| as real)
  }

  /**
    The volatility adjustment (twice the volatility, capped at 10): the
    overbought threshold `70 + a` lies in [70, 80] and the oversold threshold
    `30 - a` in [20, 30], the two moving apart by the same amount.
  */
  function VolatilityAdjustment(history: seq<real>, sqrt: SquareRoot): (a: real)
    requires |history| > 0
    ensures 0.0 <= a <= 10.0
    ensures 70.0 <= 70.0 + a <= 80.0 && 20.0 <= 30.0 - a <= 30.0
  {
    Min(Volatility(history, sqrt) * 2.0, 10.0)
  }

  /** A reading beyond the threshold: above it when looking for overbought, below it otherwise. */
  predicate Beyond(x: real, threshold: real, overbought: bool)
  {
    (overbought && x > threshold) || (!overbought && x < threshold)
  }

  /** The length of the run of readings beyond the threshold at the end of the history. */
  function ExtremeRun(history: seq<real>, threshold: real, overbought: bool): (d: nat)
    ensures d <= |history|
    ensures forall k :: |history| - d <= k < |history| ==> Beyond(history[k], threshold, overbought)
    ensures d < |history| ==> !Beyond(history[|history| - 1 - d], threshold, overbought)
  {
    if history == [] || !Beyond(history[|history| - 1], threshold, overbought) then 0
    else ExtremeRun(history[..|history| - 1], threshold, overbought) + 1
  }

  /** Only one length has a run beyond the threshold behind it and a reading that is not beyond in front of it. */
  lemma ExtremeRunUnique(history: seq<real>, threshold: real, overbought: bool, d: nat)
    requires d <= |history|
    requires forall k :: |history| - d <= k < |history| ==> Beyond(history[k], threshold, overbought)
    requires d < |history| ==> !Beyond(history[|history| - 1 - d], threshold, overbought)
    ensures d == ExtremeRun(history, threshold, overbought)
  {
  }

  /** getExtremeRSIDuration: walks back from the newest reading while it stays beyond the threshold. */
  method GetExtremeRsiDuration(history: seq<real>, threshold: real, overbought: bool) returns (duration: nat)
    ensures duration <= |history|
    ensures duration == ExtremeRun(history, threshold, overbought)
  {
    duration := 0;
    var i := |history| - 1;
    while i >= 0
      invariant -1 <= i < |history|
      invariant duration == |history| - 1 - i
      invariant forall k :: i < k < |history| ==> Beyond(history[k], threshold, overbought)
      decreases i
    {
      if Beyond(history[i], threshold, overbought) {
        duration := duration + 1;
      } else {
        break;
      }
      i := i - 1;
    }
    ExtremeRunUnique(history, threshold, overbought, duration);
  }

  /** The reading before the current one: the second newest of the history, or the current one itself. */
  function PreviousRsi(current: real, history: seq<real>): real
  {
    if |history| > 1 then history[|history| - 2] else current
  }

  /**
    rsiFormula. With an empty history the volatility is 0/0, so both
    thresholds are NaN and fail every comparison; the previous reading is then
    the current one, and the result is neutral whatever the reading.
  */
  function Rsi(current: real, history: seq<real>, sqrt: SquareRoot): (s: Signal)
    ensures Agrees(s)
    ensures s in {Signal(Fall, Vote(2)), Signal(Rise, Vote(-1)), Signal(Fall, Vote(1)), Signal(Rise, Vote(0)), NeutralSignal}
    ensures history == [] ==> s == NeutralSignal
    ensures |history| > 0 && current > 80.0 ==> s == Signal(Fall, Vote(2))
    ensures |history| > 0 && current < 20.0 ==> s == Signal(Rise, Vote(-1))
    ensures s == Signal(Fall, Vote(2)) ==> current > 70.0
    ensures s == Signal(Rise, Vote(-1)) ==> current < 30.0
    ensures s == Signal(Fall, Vote(1)) ==> |history| > 1 && 50.0 < current < history[|history| - 2]
    ensures s == Signal(Rise, Vote(0)) ==> |history| > 1 && history[|history| - 2] < current < 50.0
    ensures 30.0 <= current <= 70.0 && |history| > 1 ==>
      (s == Signal(Fall, Vote(1)) <==> 50.0 < current < history[|history| - 2]) &&
      (s == Signal(Rise, Vote(0)) <==> history[|history| - 2] < current < 50.0)
    ensures |history| > 0 ==>
      var a := VolatilityAdjustment(history, sqrt);
      (s == Signal(Fall, Vote(2)) <==> current > 70.0 + a) &&
      (s == Signal(Rise, Vote(-1)) <==> current < 30.0 - a) &&
      (30.0 - a <= current <= 70.0 + a ==>
        (s == Signal(Fall, Vote(1)) <==> 50.0 < current < PreviousRsi(current, history)) &&
        (s == Signal(Rise, Vote(0)) <==> PreviousRsi(current, history) < current < 50.0))
  {
    var previous := PreviousRsi(current, history);
    if history == [] then
      NeutralSignal
    else
      var adjustment := VolatilityAdjustment(history, sqrt);
      if current > 70.0 + adjustment then Signal(Fall, Vote(2))
      else if current < 30.0 - adjustment then Signal(Rise, Vote(-1))
      else if current > 50.0 && current < previous then Signal(Fall, Vote(1))
      else if current < 50.0 && current > previous then Signal(Rise, Vote(0))
      else NeutralSignal
  }

  // ---------------------------------------------------------------- MACD

  /** One earlier MACD reading; the close is missing when the history does not carry prices. */
  datatype MacdSample = MacdSample(macd: real, signal: real, close: Option<real>)

  /**
    `Math.min(value + 1, 2)`. On the neutral mark '00' the addition
    concatenates, giving "001", which Math.min reads as 1.
  */
  function BumpWeight(w: Weight): Weight
  {
    match w
    case Vote(n) => Vote(IntMin(n + 1, 2))
    case NeutralMark => Vote(1)
  }

  /** The price trend of the MACD history is 'rising' only when both closes are there and the newest is higher. */
  predicate ClosesRising(history: seq<MacdSample>)
    requires |history| > 0
  {
    var first, last := history[0].close, history[|history| - 1].close;
    first.Some? && last.Some? && last.value > first.value
  }

  /** The divergence test: the price trend and the MACD trend (against the second newest reading) disagree. */
  predicate Diverges(macdLine: real, history: seq<MacdSample>)
    requires |history| >= 2
  {
    ClosesRising(history) != (macdLine > history[|history| - 2].macd)
  }

  /**
    macdFormula. The direction follows the MACD line against the signal line;
    a divergence raises the weight by one, capped at 2, which turns a plain
    rise (weight 0) into a fall vote (weight 1) and a neutral reading into a
    fall vote as well.
  */
  method Macd(macdLine: real, signalLine: real, history: seq<MacdSample>) returns (s: Signal)
    requires |history| >= 2
    ensures s.direction == Rise <==> macdLine > signalLine
    ensures s.direction == Fall <==> macdLine < signalLine
    ensures s.direction == Neutral <==> macdLine == signalLine
    ensures !Diverges(macdLine, history) ==> Agrees(s)
    ensures !Diverges(macdLine, history) && macdLine > signalLine ==>
      (s.weight == Vote(-1) <==> macdLine > 0.0 && signalLine > 0.0)
    ensures !Diverges(macdLine, history) && macdLine < signalLine ==>
      (s.weight == Vote(2) <==> macdLine < 0.0 && signalLine < 0.0)
    ensures Diverges(macdLine, history) && macdLine > signalLine ==>
      s.weight == (if macdLine > 0.0 && signalLine > 0.0 then Vote(0) else Vote(1))
    ensures Diverges(macdLine, history) && macdLine < signalLine ==> s.weight == Vote(2)
    ensures Diverges(macdLine, history) && macdLine == signalLine ==> s.weight == Vote(1)
    ensures Diverges(macdLine, history) && macdLine > signalLine && !(macdLine > 0.0 && signalLine > 0.0) ==>
      VoteSide(s.weight) == Fall
    ensures !Diverges(macdLine, history) && macdLine == signalLine ==> s.weight == NeutralMark
  {
    var previous := history[|history| - 2].macd;
    var macdRising := macdLine > previous;
    var direction: Direction;
    var value: Weight;
    if macdLine > signalLine {
      direction, value := Rise, Vote(0);
      if macdLine > 0.0 && signalLine > 0.0 {
        value := Vote(-1);
      }
    } else if macdLine < signalLine {
      direction, value := Fall, Vote(1);
      if macdLine < 0.0 && signalLine < 0.0 {
        value := Vote(2);
      }
    } else {
      direction, value := Neutral, NeutralMark;
    }
    var priceRising := ClosesRising(history);
    if priceRising != macdRising {
      value := BumpWeight(value);
    }
    s := Signal(direction, value);
  }

  // ---------------------------------------------------------------- Bollinger bands

  /**
    The Bollinger signal with the two derived ratios. A ratio is None where
    its divisor is zero (JavaScript gives an infinity or NaN there).
  */
  datatype BandSignal = BandSignal(signal: Signal, percentB: Option<real>, bandwidth: Option<real>)

  /** The band trend: the middle band against its second newest value, unknown on a short history. */
  function BandTrend(middle: real, middleHistory: seq<real>): Direction
  {
    if |middleHistory| > 1 then (if middle > middleHistory[|middleHistory| - 2] then Up else Down)
    else Neutral
  }

  /**
    bollingerBandsFormula with the weight of a close far below the lower band
    as a parameter. Above the upper band: fall, 2 when %B exceeds 1.05, else 1.
    Below the lower band: rise, `farBelow` when %B is under -0.05, else 0.
    Inside: neutral, unless the bandwidth is under 0.1 and the trend is known,
    when the trend becomes the direction with weight 3.
  */
  function BandSignalWith(price: real, upper: real, lower: real, middle: real, middleHistory: seq<real>, farBelow: int): (r: BandSignal)
    ensures r.signal.direction == Fall <==> price > upper
    ensures r.signal.direction == Rise <==> !(price > upper) && price < lower
    ensures lower <= price <= upper ==> VoteSide(r.signal.weight) == Neutral
    ensures lower < upper && price > upper ==>
      (r.signal.weight == Vote(2) <==> (price - lower) / (upper - lower) > 1.05) && Agrees(r.signal)
    ensures lower < upper && price < lower ==>
      r.signal.weight == (if (price - lower) / (upper - lower) < -0.05 then Vote(farBelow) else Vote(0))
    ensures lower <= price <= upper && 0.0 < middle && (upper - lower) / middle < 0.1 && |middleHistory| > 1 ==>
      r.signal == Signal(if middle > middleHistory[|middleHistory| - 2] then Up else Down, Vote(3))
    ensures lower <= price <= upper && middle != 0.0 && (upper - lower) / middle >= 0.1 ==> r.signal == NeutralSignal
    ensures lower <= price <= upper && |middleHistory| <= 1 ==> r.signal == NeutralSignal
    ensures lower == upper && price > upper ==> r.signal.weight == Vote(2)
    ensures lower == upper && price < lower ==> r.signal.weight == Vote(farBelow)
    ensures lower <= price <= upper && middle == 0.0 ==> r.signal == NeutralSignal
    ensures lower < upper ==> r.percentB == Some((price - lower) / (upper - lower))
    ensures middle != 0.0 ==> r.bandwidth == Some((upper - lower) / middle)
  {
    var width := upper - lower;
    var trend := BandTrend(middle, middleHistory);
    var signal :=
      if price > upper then
        Signal(Fall, if QuotientAbove(price - lower, width, 1.05) then Vote(2) else Vote(1))
      else if price < lower then
        Signal(Rise, if QuotientBelow(price - lower, width, -0.05) then Vote(farBelow) else Vote(0))
      else if QuotientBelow(width, middle, 0.1) && trend != Neutral then
        Signal(trend, Vote(3))
      else NeutralSignal;
    QuotientAboveAgrees(price - lower, width, 1.05);
    QuotientAboveAgrees(price - lower, width, -0.05);
    QuotientAboveAgrees(width, middle, 0.1);
    BandSignal(signal,
               if width != 0.0 then Some((price - lower) / width) else None,
               if middle != 0.0 then Some(width / middle) else None)
  }

  /**
    bollingerBandsFormula as written: a close far below the lower band gets
    weight 2, which the tally counts as two FALL votes although the direction
    is rise.
  */
  function BollingerBands(price: real, upper: real, lower: real, middle: real, middleHistory: seq<real>): (r: BandSignal)
    ensures lower < upper && price < lower && (price - lower) / (upper - lower) < -0.05 ==>
      r.signal == Signal(Rise, Vote(2)) && VoteSide(r.signal.weight) == Fall && !Agrees(r.signal)
    ensures lower < upper && !(lower <= price <= upper) && !((price - lower) / (upper - lower) < -0.05) ==>
      Agrees(r.signal)
  {
    BandSignalWith(price, upper, lower, middle, middleHistory, 2)
  }

  /** A close at 90 under bands 100..110 is rise with weight 2: two fall votes. */
  lemma FarBelowCountsAsFall()
    ensures BollingerBands(90.0, 110.0, 100.0, 105.0, []).signal == Signal(Rise, Vote(2))
    ensures Ballot(BollingerBands(90.0, 110.0, 100.0, 105.0, []).signal.weight) == Tally(0, 2, 0)
  {
    assert (90.0 - 100.0) / (110.0 - 100.0) == -1.0;
  }

  /**
    The evidently intended evaluator: far below the lower band is a strong
    rise (weight -1), so every signal outside the bands is counted on the side
    its direction names.
  */
  function BollingerBandsIntended(price: real, upper: real, lower: real, middle: real, middleHistory: seq<real>): (r: BandSignal)
    ensures lower < upper && !(lower <= price <= upper) ==> Agrees(r.signal)
    ensures lower < upper && price < lower && (price - lower) / (upper - lower) < -0.05 ==>
      r.signal == Signal(Rise, Vote(-1))
  {
    BandSignalWith(price, upper, lower, middle, middleHistory, -1)
  }

  // ---------------------------------------------------------------- Fibonacci

  const FibonacciLevels: seq<real> := [0.0, 23.6, 38.2, 50.0, 61.8, 78.6, 100.0]

  /** The `reduce` over the levels: the level nearest to x (NearestFirst: an earlier level wins a tie). */
  function Nearest(levels: seq<real>, x: real): (l: real)
    requires |levels| > 0
    ensures l in levels
    ensures forall k :: 0 <= k < |levels| ==> Abs(l - x) <= Abs(levels[k] - x)
  {
    if |levels| == 1 then levels[0]
    else
      var prefix := levels[..|levels| - 1];
      var prev := Nearest(prefix, x);
      var curr := levels[|levels| - 1];
      assert forall k :: 0 <= k < |prefix| ==> prefix[k] == levels[k];
      if Abs(curr - x) < Abs(prev - x) then curr else prev
  }

  /**
    The `reduce` keeps the earlier level on a tie: every level as near as the
    reported one has the reported one at or before its position.
  */
  lemma {:induction false} NearestFirst(levels: seq<real>, x: real, k: nat)
    requires 0 <= k < |levels|
    requires Abs(levels[k] - x) == Abs(Nearest(levels, x) - x)
    ensures Nearest(levels, x) in levels[..k + 1]
    decreases |levels|, 1
  {
    if k == |levels| - 1 {
      assert levels[..k + 1] == levels;
    } else {
      NearestFirstBefore(levels, x, k);
    }
  }

  /** NearestFirst for a tie before the newest level: the newest level cannot have replaced the earlier one. */
  lemma {:induction false} NearestFirstBefore(levels: seq<real>, x: real, k: nat)
    requires 0 <= k < |levels| - 1
    requires Abs(levels[k] - x) == Abs(Nearest(levels, x) - x)
    ensures Nearest(levels, x) in levels[..k + 1]
    decreases |levels|, 0
  {
    var prefix := levels[..|levels| - 1];
    var prev := Nearest(prefix, x);
    var curr := levels[|levels| - 1];
    assert Nearest(levels, x) == if Abs(curr - x) < Abs(prev - x) then curr else prev;
    assert levels[k] == prefix[k];
    assert Abs(prev - x) <= Abs(prefix[k] - x);
    assert Nearest(levels, x) == prev;
    assert prefix[..k + 1] == levels[..k + 1];
    NearestFirst(prefix, x, k);
  }

  datatype TrendStrength = Strong | Weak | Moderate | Undetermined

  /** A sum below `t` per element has an element below `t`. */
  lemma {:induction false} SomeBelow(xs: seq<real>, t: real)
    requires Sum(xs) < t * |xs| as real
    ensures exists k :: 0 <= k < |xs| && xs[k] < t
  {
    var prefix := xs[..|xs| - 1];
    if xs[|xs| - 1] >= t {
      assert Sum(prefix) < t * |prefix| as real;
      SomeBelow(prefix, t);
      var k :| 0 <= k < |prefix| && prefix[k] < t;
      assert xs[k] == prefix[k];
    }
  }

  /** A sum above `t` per element has an element above `t`. */
  lemma {:induction false} SomeAbove(xs: seq<real>, t: real)
    requires Sum(xs) > t * |xs| as real
    ensures exists k :: 0 <= k < |xs| && xs[k] > t
  {
    var prefix := xs[..|xs| - 1];
    if xs[|xs| - 1] <= t {
      assert Sum(prefix) > t * |prefix| as real;
      SomeAbove(prefix, t);
      var k :| 0 <= k < |prefix| && prefix[k] > t;
      assert xs[k] == prefix[k];
    }
  }

  /**
    determineTrendStrength: the mean of the last five retracements below 38.2
    is strong, above 61.8 weak, otherwise moderate; unknown with fewer than
    five ('unknown' in the source). A strong (weak) trend therefore has a reading below 38.2 (above 61.8)
    among the last five.
  */
  function Strength(history: seq<real>): (r: TrendStrength)
    ensures r == Undetermined <==> |history| < 5
    ensures |history| >= 5 ==> (r == Strong <==> Sum(history[|history| - 5..]) / 5.0 < 38.2)
    ensures |history| >= 5 ==> (r == Weak <==> Sum(history[|history| - 5..]) / 5.0 > 61.8)
    ensures |history| >= 5 ==> (r == Moderate <==> 38.2 <= Sum(history[|history| - 5..]) / 5.0 <= 61.8)
    ensures r == Strong ==> exists k :: |history| - 5 <= k < |history| && history[k] < 38.2
    ensures r == Weak ==> exists k :: |history| - 5 <= k < |history| && history[k] > 61.8
  {
    if |history| < 5 then Undetermined
    else
      var recent := history[|history| - 5..];
      var average := Sum(recent) / 5.0;
      assert forall k :: 0 <= k < 5 ==> recent[k] == history[|history| - 5 + k];
      if average < 38.2 then
        SomeBelow(recent, 38.2);
        Strong
      else if average > 61.8 then
        SomeAbove(recent, 61.8);
        Weak
      else Moderate
  }

  datatype FibSignal = FibSignal(signal: Signal, retracementLevel: real, strength: TrendStrength)

  /**
    fibonacciRetracementFormula. The direction depends only on the trend tag
    and the cut-offs 61.8 (tag "DOWNTREND") and 38.2 (any other tag); it is
    never neutral. The strong-trend raise compares "rise"/"fall" with the
    lower-cased tag, so it can fire only for a tag that reads "rise" or "fall";
    for every other tag only a weak trend raises the weight, capped at 2, and
    a weak trend turns the downtrend's rise (weight 0) into a fall vote.
  */
  method FibonacciRetracement(retracement: real, trend: string, history: seq<real>) returns (r: FibSignal)
    ensures r.signal.direction == Rise || r.signal.direction == Fall
    ensures r.signal.direction == Fall <==> (if trend == "DOWNTREND" then retracement > 61.8 else retracement >= 38.2)
    ensures r.retracementLevel in FibonacciLevels
    ensures forall k :: 0 <= k < |FibonacciLevels| ==> Abs(r.retracementLevel - retracement) <= Abs(FibonacciLevels[k] - retracement)
    ensures r.strength == Strength(history)
    ensures trend == "DOWNTREND" && retracement > 61.8 ==> r.signal.weight == Vote(2)
    ensures trend == "DOWNTREND" && retracement <= 61.8 ==>
      r.signal.weight == (if r.strength == Weak then Vote(1) else Vote(0))
    ensures trend != "DOWNTREND" && LowerCase(trend) != "rise" && LowerCase(trend) != "fall" && retracement < 38.2 ==>
      r.signal.weight == (if r.strength == Weak then Vote(0) else Vote(-1))
    ensures trend != "DOWNTREND" && LowerCase(trend) != "rise" && LowerCase(trend) != "fall" && retracement >= 38.2 ==>
      r.signal.weight == (if r.strength == Weak then Vote(2) else Vote(1))
    ensures trend != "DOWNTREND" && LowerCase(trend) == "rise" ==>
      r.signal.weight == (if retracement < 38.2 then (if r.strength == Strong then Vote(0) else Vote(-1))
                          else (if r.strength == Weak then Vote(2) else Vote(1)))
    ensures trend != "DOWNTREND" && LowerCase(trend) == "fall" ==>
      r.signal.weight == (if retracement < 38.2 then (if r.strength == Weak then Vote(0) else Vote(-1))
                          else (if r.strength == Strong then Vote(2) else Vote(1)))
  {
    var nearest := Nearest(FibonacciLevels, retracement);
    var strength := Strength(history);
    var direction: Direction;
    var value: int;
    if trend == "DOWNTREND" {
      if retracement > 61.8 {
        direction, value := Fall, 2;
      } else {
        direction, value := Rise, 0;
      }
    } else {
      if retracement < 38.2 {
        direction, value := Rise, -1;
      } else {
        direction, value := Fall, 1;
      }
    }
    var tag := LowerCase(trend);
    if strength == Strong && DirectionName(direction) == tag {
      value := IntMin(value + 1, 2);
    } else if strength == Weak && DirectionName(direction) != tag {
      value := IntMin(value + 1, 2);
    }
    r := FibSignal(Signal(direction, Vote(value)), nearest, strength);
  }

  // ---------------------------------------------------------------- VOSC

  /** One earlier VOSC reading; the price is missing when the history does not carry one. */
  datatype VoscSample = VoscSample(value: real, price: Option<real>)

  /** The VOSC trend; `Steady` is the source's 'neutral', `Unknown` its 'unknown'. */
  datatype VolumeTrend = Rising | Falling | Steady | Unknown

  /**
    calculateVOSCTrend over the last five readings: the mean of the last two
    against the mean of the first two (the middle reading plays no part).
  */
  function VoscTrend(history: seq<VoscSample>): (t: VolumeTrend)
    ensures t == Unknown <==> |history| < 5
    ensures |history| >= 5 ==>
      var n := |history|;
      (t == Rising <==> history[n - 2].value + history[n - 1].value > history[n - 5].value + history[n - 4].value) &&
      (t == Falling <==> history[n - 2].value + history[n - 1].value < history[n - 5].value + history[n - 4].value)
  {
    if |history| < 5 then Unknown
    else
      var recent := history[|history| - 5..];
      var firstAverage := (recent[0].value + recent[1].value) / 2.0;
      var secondAverage := (recent[3].value + recent[4].value) / 2.0;
      if secondAverage > firstAverage then Rising
      else if secondAverage < firstAverage then Falling
      else Steady
  }

  /**
    calculatePriceTrend: null when the history is shorter than five or its
    first price is missing or zero; otherwise the last of the five newest
    prices against the first of them, a missing (undefined) price failing
    both tests.
  */
  function PriceTrend(history: seq<VoscSample>): (t: Option<Direction>)
    ensures t.None? <==> |history| < 5 || history[0].price == None || history[0].price == Some(0.0)
    ensures t.Some? ==> t.value in {Rise, Fall, Neutral}
    ensures t.Some? ==>
      var first, last := history[|history| - 5].price, history[|history| - 1].price;
      (t.value == Rise <==> first.Some? && last.Some? && last.value > first.value) &&
      (t.value == Fall <==> first.Some? && last.Some? && last.value < first.value) &&
      (t.value == Neutral <==> first.None? || last.None? || last.value == first.value)
  {
    if |history| < 5 || history[0].price == None || history[0].price == Some(0.0) then None
    else
      var recent := history[|history| - 5..];
      var first, last := recent[0].price, recent[4].price;
      if first.Some? && last.Some? && last.value > first.value then Some(Rise)
      else if first.Some? && last.Some? && last.value < first.value then Some(Fall)
      else Some(Neutral)
  }

  datatype VoscSignal = VoscSignal(signal: Signal, trend: VolumeTrend)

  /**
    voscFormula: the direction is the sign of the reading; a trend in the
    same direction strengthens it (rise to -1, fall to 2). The strong-signal
    threshold and the price divergence change only the reason text.
  */
  method Vosc(vosc: real, history: seq<VoscSample>) returns (r: VoscSignal)
    ensures r.trend == VoscTrend(history)
    ensures r.signal.direction == Rise <==> vosc > 0.0
    ensures r.signal.direction == Fall <==> vosc < 0.0
    ensures vosc == 0.0 <==> r.signal == NeutralSignal
    ensures Agrees(r.signal)
    ensures r.signal.weight == Vote(-1) <==> vosc > 0.0 && r.trend == Rising
    ensures r.signal.weight == Vote(2) <==> vosc < 0.0 && r.trend == Falling
  {
    var trend := VoscTrend(history);
    var direction: Direction;
    var value: Weight;
    if vosc > 0.0 {
      direction, value := Rise, Vote(0);
    } else if vosc < 0.0 {
      direction, value := Fall, Vote(1);
    } else {
      direction, value := Neutral, NeutralMark;
    }
    if trend == Rising && direction == Rise {
      value := Vote(-1);
    } else if trend == Falling && direction == Fall {
      value := Vote(2);
    }
    r := VoscSignal(Signal(direction, value), trend);
  }

  // ---------------------------------------------------------------- EMA crossover

  /**
    The crossover decision of emaCrossoverFormula: a rise (0) when the short
    EMA has just crossed above the long one, a fall (1) when it has just
    crossed below, neutral otherwise. The two crossings exclude each other.
  */
  function EmaCrossover(currentShort: real, currentLong: real, previousShort: real, previousLong: real): (s: Signal)
    ensures s.direction == Rise <==> currentShort > currentLong && previousShort <= previousLong
    ensures s.direction == Fall <==> currentShort < currentLong && previousShort >= previousLong
    ensures s.direction == Neutral <==> !(currentShort > currentLong && previousShort <= previousLong) &&
                                        !(currentShort < currentLong && previousShort >= previousLong)
    ensures Agrees(s)
    ensures s.direction != Neutral ==> s.weight.Vote? && 0 <= s.weight.n <= 1
    ensures s.direction == Neutral ==> s == NeutralSignal
  {
    if currentShort > currentLong && previousShort <= previousLong then Signal(Rise, Vote(0))
    else if currentShort < currentLong && previousShort >= previousLong then Signal(Fall, Vote(1))
    else NeutralSignal
  }
}
