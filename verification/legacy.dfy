/**
  The older engine of backend/server.js: threshold-only evaluators with the
  weights 0 (rise), 1 (fall) and '00' (neutral), a vote tally that knows only
  those three, and a bear-flag scan driven by a `slopeCheck` flag.
*/
module Legacy {
  import opened Common
  import opened Votes
  import Indicators

  // ---------------------------------------------------------------- evaluateAssetDirection

  /** The legacy weight table: 0 is a rise vote, 1 a fall vote, anything else a neutral vote. */
  function LegacyBallot(w: Weight): Tally
  {
    if w == Vote(0) then Tally(1, 0, 0)
    else if w == Vote(1) then Tally(0, 1, 0)
    else Tally(0, 0, 1)
  }

  /** The side of the legacy tally a weight is counted on. */
  function LegacySide(w: Weight): (d: Direction)
    ensures d == Rise <==> w == Vote(0)
    ensures d == Fall <==> w == Vote(1)
    ensures d == Neutral <==> w != Vote(0) && w != Vote(1)
  {
    var b := LegacyBallot(w);
    if b.rise > 0 then Rise else if b.fall > 0 then Fall else Neutral
  }

  /** A signal that the legacy tally counts on the side its direction names. */
  predicate LegacyAgrees(s: Signal)
  {
    LegacySide(s.weight) == s.direction
  }

  method EvaluateAssetDirection(predictions: seq<Signal>) returns (verdict: Direction)
    ensures verdict == Verdict(TallyOf(LegacyBallot, predictions))
    ensures predictions == [] ==> verdict == Neutral
    ensures verdict == Rise || verdict == Fall || verdict == Neutral
  {
    var riseCount, fallCount, neutralCount := 0, 0, 0;
    for k := 0 to |predictions|
      invariant Tally(riseCount, fallCount, neutralCount) == TallyOf(LegacyBallot, predictions[..k])
    {
      LegacyTallyStep(predictions, k);
      riseCount, fallCount, neutralCount := CountVote(predictions[k].weight, riseCount, fallCount, neutralCount);
    }
    assert predictions[..|predictions|] == predictions;
    if riseCount > fallCount && riseCount > neutralCount {
      return Rise;
    }
    if fallCount > riseCount && fallCount > neutralCount {
      return Fall;
    }
    return Neutral;
  }

  /** The body of the counting loop: one prediction's weight added to the counts by the legacy table. */
  method CountVote(value: Weight, riseCount: nat, fallCount: nat, neutralCount: nat)
    returns (rise: nat, fall: nat, neutral: nat)
    ensures Tally(rise, fall, neutral) == Add(Tally(riseCount, fallCount, neutralCount), LegacyBallot(value))
  {
    rise, fall, neutral := riseCount, fallCount, neutralCount;
    if value == Vote(0) {
      rise := rise + 1;
    } else if value == Vote(1) {
      fall := fall + 1;
    } else {
      neutral := neutral + 1;
    }
  }

  lemma LegacyTallyStep(s: seq<Signal>, k: nat)
    requires k < |s|
    ensures TallyOf(LegacyBallot, s[..k + 1]) == Add(TallyOf(LegacyBallot, s[..k]), LegacyBallot(s[k].weight))
  {
    assert s[..k + 1][..k] == s[..k];
  }

  /**
    The legacy tally counted weight by weight: rise is the number of 0s, fall
    the number of 1s, and every other signal is one neutral vote.
  */
  lemma {:induction false} LegacyTallyByWeight(s: seq<Signal>)
    ensures TallyOf(LegacyBallot, s).rise == Count(s, Vote(0))
    ensures TallyOf(LegacyBallot, s).fall == Count(s, Vote(1))
    ensures TallyOf(LegacyBallot, s).neutral == |s| - Count(s, Vote(0)) - Count(s, Vote(1))
  {
    if s != [] {
      var s' := s[..|s| - 1];
      var w := s[|s| - 1].weight;
      LegacyTallyByWeight(s');
      assert TallyOf(LegacyBallot, s) == Add(TallyOf(LegacyBallot, s'), LegacyBallot(w));
      assert Count(s, Vote(0)) == Count(s', Vote(0)) + (if w == Vote(0) then 1 else 0);
      assert Count(s, Vote(1)) == Count(s', Vote(1)) + (if w == Vote(1) then 1 else 0);
    }
  }

  /** The legacy verdict does not depend on the order of the predictions. */
  lemma LegacyVerdictOrderFree(s: seq<Signal>, t: seq<Signal>)
    requires multiset(s) == multiset(t)
    ensures Verdict(TallyOf(LegacyBallot, s)) == Verdict(TallyOf(LegacyBallot, t))
  {
    TallyOfPermutation(LegacyBallot, s, t);
  }

  // ---------------------------------------------------------------- evaluators

  /** rsiFormula: over 70 is a fall vote, under 30 a rise vote, anything between neutral. */
  function Rsi(rsiValue: real): (s: Signal)
    ensures s.direction == Fall <==> rsiValue > 70.0
    ensures s.direction == Rise <==> rsiValue < 30.0
    ensures s.direction == Neutral <==> 30.0 <= rsiValue <= 70.0
    ensures LegacyAgrees(s)
    ensures s.direction == Neutral ==> s == NeutralSignal
  {
    if rsiValue > 70.0 then Signal(Fall, Vote(1))
    else if rsiValue < 30.0 then Signal(Rise, Vote(0))
    else NeutralSignal
  }

  /**
    bollingerBandsFormula: the price against the bands rounded to four
    decimals (the comparison of a number with a toFixed string is numeric).
    Above the upper band is a fall vote, below the lower band a rise vote.
  */
  function BollingerBands(price: real, upperBand: real, lowerBand: real): (s: Signal)
    ensures s.direction == Fall <==> price > ToFixed4(upperBand)
    ensures s.direction == Rise <==> price <= ToFixed4(upperBand) && price < ToFixed4(lowerBand)
    ensures LegacyAgrees(s)
    ensures price > upperBand + 0.00005 ==> s.direction == Fall
    ensures price < lowerBand - 0.00005 && price <= upperBand - 0.00005 ==> s.direction == Rise
    ensures lowerBand + 0.00005 <= price <= upperBand - 0.00005 ==> s.direction == Neutral
    ensures s.direction == Neutral ==> s == NeutralSignal
  {
    if price > ToFixed4(upperBand) then Signal(Fall, Vote(1))
    else if price < ToFixed4(lowerBand) then Signal(Rise, Vote(0))
    else NeutralSignal
  }

  /**
    fibonacciRetracementFormula: the retracement rounded to four decimals;
    on the exact tag "DOWNTREND" over 61.8 is a fall vote, on any other tag
    under 38.2 is a rise vote. It is never neutral.
  */
  function FibonacciRetracement(value: real, trend: string): (s: Signal)
    ensures s.direction == Rise || s.direction == Fall
    ensures trend == "DOWNTREND" ==> (s.direction == Fall <==> ToFixed4(value) > 61.8)
    ensures trend != "DOWNTREND" ==> (s.direction == Rise <==> ToFixed4(value) < 38.2)
    ensures LegacyAgrees(s)
  {
    var retracementValue := ToFixed4(value);
    if trend == "DOWNTREND" then
      (if retracementValue > 61.8 then Signal(Fall, Vote(1)) else Signal(Rise, Vote(0)))
    else
      (if retracementValue < 38.2 then Signal(Rise, Vote(0)) else Signal(Fall, Vote(1)))
  }

  /**
    The cut-offs on the unrounded retracement: with rounding half away from
    zero, a "DOWNTREND" reading falls exactly from 61.80005 on, and any
    other reading rises exactly below 38.19995.
  */
  lemma FibonacciCutoffs(value: real, trend: string)
    ensures trend == "DOWNTREND" ==> (FibonacciRetracement(value, trend).direction == Fall <==> value >= 61.80005)
    ensures trend != "DOWNTREND" ==> (FibonacciRetracement(value, trend).direction == Rise <==> value < 38.19995)
  {
    if value >= 0.0 {
      HalfUp4Above(value, 618000);
      HalfUp4Below(value, 382000);
    }
  }

  /** Rounding to four decimals exceeds `n / 10000` exactly when the value reaches `(n + 0.5) / 10000`. */
  lemma HalfUp4Above(y: real, n: int)
    ensures HalfUp4(y) > n as real / 10000.0 <==> y >= (n as real + 0.5) / 10000.0
  {
    var f := (y * 10000.0 + 0.5).Floor;
    assert HalfUp4(y) == f as real / 10000.0;
    assert HalfUp4(y) > n as real / 10000.0 <==> f > n;
    assert f > n <==> y * 10000.0 + 0.5 >= (n + 1) as real;
  }

  /** Rounding to four decimals stays under `n / 10000` exactly when the value is under `(n - 0.5) / 10000`. */
  lemma HalfUp4Below(y: real, n: int)
    ensures HalfUp4(y) < n as real / 10000.0 <==> y < (n as real - 0.5) / 10000.0
  {
    var f := (y * 10000.0 + 0.5).Floor;
    assert HalfUp4(y) == f as real / 10000.0;
    assert HalfUp4(y) < n as real / 10000.0 <==> f < n;
    assert f < n <==> y * 10000.0 + 0.5 < n as real;
  }

  /** voscFormula: the direction is the sign of the oscillator. */
  function Vosc(voscValue: real): (s: Signal)
    ensures s.direction == Rise <==> voscValue > 0.0
    ensures s.direction == Fall <==> voscValue < 0.0
    ensures s.direction == Neutral <==> voscValue == 0.0
    ensures LegacyAgrees(s)
    ensures s.direction == Neutral ==> s == NeutralSignal
  {
    if voscValue > 0.0 then Signal(Rise, Vote(0))
    else if voscValue < 0.0 then Signal(Fall, Vote(1))
    else NeutralSignal
  }

  /**
    The EMA decision of the legacy server is the one of server.js: the legacy
    tally counts it on the side it names, and both tallies give it the same
    vote.
  */
  lemma EmaCrossoverLegacy(currentShort: real, currentLong: real, previousShort: real, previousLong: real)
    ensures var s := Indicators.EmaCrossover(currentShort, currentLong, previousShort, previousLong);
            LegacyAgrees(s) && s.direction in {Rise, Fall, Neutral} &&
            LegacyBallot(s.weight) == Ballot(s.weight)
  {
  }

  // ---------------------------------------------------------------- the bear-flag scan

  const MinFlagDuration := 5
  const FlagpoleThreshold := 0.02

  /** The scan's running variables. */
  datatype LegacyScan = LegacyScan(flagpoleHigh: real, flagpoleLow: real, flagDuration: nat,
                                   volumeDuringFlag: real, slopeCheck: bool)

  const LegacyStart := LegacyScan(0.0, 0.0, 0, 0.0, true)

  /** One iteration: go on with the new variables, or `break` with them. */
  datatype LegacyStep = Continue(scan: LegacyScan) | Break(scan: LegacyScan)

  /**
    Iteration `i` of the loop. Only a close below the previous close does
    anything: while `flagpoleHigh` is 0 it starts the envelope; afterwards it
    widens the envelope, adds its volume, and from the fifth such candle on
    breaks with `slopeCheck` false unless its volume is under the running
    average and it stays inside the boundaries.
  */
  function Step(d: seq<Candle>, i: nat, s: LegacyScan): LegacyStep
    requires 1 <= i < |d|
  {
    if !(d[i].close < d[i - 1].close) then Continue(s)
    else if s.flagpoleHigh == 0.0 then Continue(LegacyScan(d[i - 1].high, d[i].low, 1, d[i].volume, s.slopeCheck))
    else
      var high := Max(s.flagpoleHigh, d[i - 1].high);
      var low := Min(s.flagpoleLow, d[i].low);
      var volume := s.volumeDuringFlag + d[i].volume;
      var duration := s.flagDuration + 1;
      if duration < MinFlagDuration then Continue(LegacyScan(high, low, duration, volume, s.slopeCheck))
      else if d[i].volume < volume / duration as real then
        var slope := s.slopeCheck && d[i].close < d[i - 1].close;
        if d[i].high > high * (1.0 - FlagpoleThreshold) || d[i].low < low * (1.0 + FlagpoleThreshold) then
          Break(LegacyScan(high, low, duration, volume, false))
        else Continue(LegacyScan(high, low, duration, volume, slope))
      else Break(LegacyScan(high, low, duration, volume, false))
  }

  /** Where the loop ends: its variables, and whether it left by `break`. */
  datatype LegacyEnd = LegacyEnd(scan: LegacyScan, broke: bool)

  /** The loop from iteration `i` on. */
  function Run(d: seq<Candle>, i: nat, s: LegacyScan): LegacyEnd
    requires 1 <= i <= |d|
    decreases |d| - i
  {
    if i == |d| then LegacyEnd(s, false)
    else match Step(d, i, s)
      case Continue(s') => Run(d, i + 1, s')
      case Break(s') => LegacyEnd(s', true)
  }

  /** The answer of the legacy getBearFlagSignal; an empty array fails on its missing last candle. */
  datatype LegacyFlag = NoFlag | BearFlag(targetPrice: real, flagpoleHeight: real) | Failed

  /** The legacy scan of a candle response (None for a missing response). */
  function BearFlagOf(data: Option<seq<Candle>>): LegacyFlag
  {
    match data
    case None => NoFlag
    case Some(d) =>
      if d == [] then Failed
      else
        var s := Run(d, 1, LegacyStart).scan;
        var lastCandle := d[|d| - 1];
        if lastCandle.close > s.flagpoleLow * (1.0 + FlagpoleThreshold) then NoFlag
        else if s.slopeCheck then
          var flagpoleHeight := s.flagpoleHigh - s.flagpoleLow;
          BearFlag(lastCandle.low - flagpoleHeight, flagpoleHeight)
        else NoFlag
  }

  /** getBearFlagSignal after the fetch: the loop with its `break`s, then the breakout and slope tests. */
  method GetBearFlagSignal(data: Option<seq<Candle>>) returns (r: LegacyFlag)
    ensures r == BearFlagOf(data)
  {
    if data.None? {
      return NoFlag;
    }
    var d := data.value;
    if d == [] {
      return Failed;
    }
    var flagpoleHigh, flagpoleLow, flagDuration, volumeDuringFlag, slopeCheck := 0.0, 0.0, 0, 0.0, true;
    var i := 1;
    while i < |d|
      invariant 1 <= i <= |d|
      invariant slopeCheck
      invariant Run(d, i, LegacyScan(flagpoleHigh, flagpoleLow, flagDuration, volumeDuringFlag, slopeCheck))
             == Run(d, 1, LegacyStart)
    {
      ghost var t := Step(d, i, LegacyScan(flagpoleHigh, flagpoleLow, flagDuration, volumeDuringFlag, slopeCheck));
      if d[i].close < d[i - 1].close {
        if flagpoleHigh == 0.0 {
          flagpoleHigh := d[i - 1].high;
          flagpoleLow := d[i].low;
          flagDuration := 1;
          volumeDuringFlag := d[i].volume;
        } else {
          flagpoleHigh := Max(flagpoleHigh, d[i - 1].high);
          flagpoleLow := Min(flagpoleLow, d[i].low);
          volumeDuringFlag := volumeDuringFlag + d[i].volume;
          flagDuration := flagDuration + 1;
          if flagDuration >= MinFlagDuration {
            var avgVolumeFlagpole := volumeDuringFlag / flagDuration as real;
            if d[i].volume < avgVolumeFlagpole {
              slopeCheck := slopeCheck && d[i].close < d[i - 1].close;
              var flagHighBoundary := flagpoleHigh * (1.0 - FlagpoleThreshold);
              var flagLowBoundary := flagpoleLow * (1.0 + FlagpoleThreshold);
              if d[i].high > flagHighBoundary || d[i].low < flagLowBoundary {
                slopeCheck := false;
                assert t == Break(LegacyScan(flagpoleHigh, flagpoleLow, flagDuration, volumeDuringFlag, slopeCheck));
                break;
              }
            } else {
              slopeCheck := false;
              assert t == Break(LegacyScan(flagpoleHigh, flagpoleLow, flagDuration, volumeDuringFlag, slopeCheck));
              break;
            }
          }
        }
      }
      assert t == Continue(LegacyScan(flagpoleHigh, flagpoleLow, flagDuration, volumeDuringFlag, slopeCheck));
      i := i + 1;
    }
    assert Run(d, 1, LegacyStart).scan == LegacyScan(flagpoleHigh, flagpoleLow, flagDuration, volumeDuringFlag, slopeCheck);
    var lastCandle := d[|d| - 1];
    var flagLowBoundary := flagpoleLow * (1.0 + FlagpoleThreshold);
    if lastCandle.close > flagLowBoundary {
      return NoFlag;
    }
    if slopeCheck {
      var flagpoleHeight := flagpoleHigh - flagpoleLow;
      var targetPrice := lastCandle.low - flagpoleHeight;
      return BearFlag(targetPrice, flagpoleHeight);
    }
    return NoFlag;
  }

  /**
    `slopeCheck` only ever goes from true to false, and it is false at the
    end exactly when the loop left by a `break` (given it starts true).
  */
  lemma {:induction false} SlopeCheckMonotone(d: seq<Candle>, i: nat, s: LegacyScan)
    requires 1 <= i <= |d|
    ensures Run(d, i, s).scan.slopeCheck ==> s.slopeCheck
    ensures s.slopeCheck ==> (Run(d, i, s).scan.slopeCheck <==> !Run(d, i, s).broke)
    decreases |d| - i
  {
    if i < |d| {
      match Step(d, i, s)
      case Continue(s') =>
        StepKeepsSlope(d, i, s);
        SlopeCheckMonotone(d, i + 1, s');
      case Break(s') =>
        StepKeepsSlope(d, i, s);
    }
  }

  /** A `break` clears `slopeCheck`; any other iteration keeps it while the close is below the previous one. */
  lemma StepKeepsSlope(d: seq<Candle>, i: nat, s: LegacyScan)
    requires 1 <= i < |d|
    ensures Step(d, i, s).Break? ==> !Step(d, i, s).scan.slopeCheck
    ensures Step(d, i, s).Continue? ==> Step(d, i, s).scan.slopeCheck == s.slopeCheck
  {
  }

  /**
    A found bear flag: the loop ran to the end without a `break`, the last
    close is at or under the flag's low boundary, and the target is the last
    low minus the flagpole height, the height being the envelope's span.
  */
  lemma FoundBearFlag(data: Option<seq<Candle>>)
    requires BearFlagOf(data).BearFlag?
    ensures data.Some? && data.value != []
    ensures var d := data.value;
            var e := Run(d, 1, LegacyStart);
            !e.broke &&
            d[|d| - 1].close <= e.scan.flagpoleLow * 1.02 &&
            BearFlagOf(data).flagpoleHeight == e.scan.flagpoleHigh - e.scan.flagpoleLow &&
            BearFlagOf(data).targetPrice == d[|d| - 1].low - BearFlagOf(data).flagpoleHeight
  {
    SlopeCheckMonotone(data.value, 1, LegacyStart);
  }

  /** With no close below its predecessor the loop changes nothing: the envelope stays at 0. */
  lemma {:induction false} NoDownCloseKeepsStart(d: seq<Candle>, i: nat)
    requires 1 <= i <= |d|
    requires forall k :: i <= k < |d| ==> d[k].close >= d[k - 1].close
    ensures Run(d, i, LegacyStart) == LegacyEnd(LegacyStart, false)
    decreases |d| - i
  {
    if i < |d| {
      assert Step(d, i, LegacyStart) == Continue(LegacyStart);
      NoDownCloseKeepsStart(d, i + 1);
    }
  }

  /**
    Candles that never close below their predecessor, with a positive last
    close, give no pattern: the low boundary stays 0 and the last close is
    above it.
  */
  lemma NoDownCloseNoFlag(d: seq<Candle>)
    requires d != []
    requires forall k :: 1 <= k < |d| ==> d[k].close >= d[k - 1].close
    requires d[|d| - 1].close > 0.0
    ensures BearFlagOf(Some(d)) == NoFlag
  {
    NoDownCloseKeepsStart(d, 1);
  }
}
