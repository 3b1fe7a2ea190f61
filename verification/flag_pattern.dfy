/**
  The bear and bull flag scanners of server.js, run over the candle array the
  market-data API returned. The two scanners are one state machine
  parameterised by the orientation, keeping their asymmetries: the flagpole
  tests, the flag boundaries and the target price differ between them.

  The array may have holes (`None`): the scanners skip a missing candle.
*/
module FlagPattern {
  import opened Common

  /**
    The scanners' options and their defaults; `flagpoleThreshold` is read by
    neither scanner. `significantTrendPercentage` stands for the bear
    scanner's `significantDowntrendPercentage` and the bull scanner's
    `significantUptrendPercentage`, which share the default 0.05.
  */
  datatype FlagOptions = FlagOptions(
    minFlagDuration: int,
    flagpoleThreshold: real,
    flagThreshold: real,
    volumeDecreaseThreshold: real,
    breakoutVolumeIncrease: real,
    significantTrendPercentage: real,
    maxPatternDuration: int)

  const DefaultOptions := FlagOptions(5, 0.02, 0.01, 0.8, 1.5, 0.05, 30)

  /**
    The scanner's answer: too few candles, no flagpole, no valid flag, or a
    flag with its target price, flagpole height, score and the three indices.
  */
  datatype FlagResult =
    | InsufficientData
    | NoTrend
    | NoPattern
    | Found(targetPrice: real, flagpoleHeight: real, patternScore: int,
            flagpoleStart: nat, flagStart: nat, breakoutIndex: nat)

  /**
    Candles whose prices are positive and whose volumes are not negative: the
    scanners and the score divide by prices and by average volumes.
  */
  predicate Sane(d: seq<Option<Candle>>)
  {
    forall k :: 0 <= k < |d| && d[k].Some? ==>
      d[k].value.high > 0.0 && d[k].value.low > 0.0 && d[k].value.close > 0.0 && d[k].value.volume >= 0.0
  }

  /** Candles whose close lies between their low and their high. */
  predicate WellFormed(d: seq<Option<Candle>>)
  {
    forall k :: 0 <= k < |d| && d[k].Some? ==> d[k].value.low <= d[k].value.close <= d[k].value.high
  }

  /** `data[i]`, undefined (None) outside the array. */
  function At(d: seq<Option<Candle>>, i: int): Option<Candle>
  {
    if 0 <= i < |d| then d[i] else None
  }

  // ---------------------------------------------------------------- phase 1: the flagpole

  /**
    A flagpole starts at i - 1: both candles are there and the move is
    significant. Bear: the drop from the earlier high to the later low, over
    the earlier high. Bull: the rise from the earlier low to the later high,
    over the earlier low.
  */
  predicate PoleAt(or: Orientation, o: FlagOptions, d: seq<Option<Candle>>, i: nat)
    requires 1 <= i < |d|
  {
    d[i].Some? && d[i - 1].Some? &&
    var previous, current := d[i - 1].value, d[i].value;
    match or
    case Bear => QuotientAbove(previous.high - current.low, previous.high, o.significantTrendPercentage)
    case Bull => QuotientAbove(current.high - previous.low, previous.low, o.significantTrendPercentage)
  }

  /** The first flagpole start found by looking at i, i + 1, ... */
  function FirstPole(or: Orientation, o: FlagOptions, d: seq<Option<Candle>>, i: nat): (r: Option<nat>)
    requires 1 <= i
    ensures r.Some? ==> i <= r.value + 1 < |d| && PoleAt(or, o, d, r.value + 1)
    ensures r.Some? ==> forall j :: i <= j <= r.value ==> !PoleAt(or, o, d, j)
    ensures r.None? ==> forall j :: i <= j < |d| ==> !PoleAt(or, o, d, j)
    decreases |d| - i
  {
    if i >= |d| then None
    else if PoleAt(or, o, d, i) then Some(i - 1)
    else FirstPole(or, o, d, i + 1)
  }

  // ---------------------------------------------------------------- phase 2 and 3: the flag

  /** The flag begins at the first close against the trend: higher in a downtrend, lower in an uptrend. */
  predicate FlagBegins(or: Orientation, current: Candle, previous: Candle)
  {
    match or
    case Bear => current.close > previous.close
    case Bull => current.close < previous.close
  }

  /** The upper flag boundary: below the flagpole high for a bear flag, above it for a bull flag. */
  function HighBoundary(or: Orientation, o: FlagOptions, high: real): real
  {
    match or
    case Bear => high * (1.0 - o.flagThreshold)
    case Bull => high * (1.0 + o.flagThreshold)
  }

  /** The lower flag boundary: above the flagpole low for a bear flag, below it for a bull flag. */
  function LowBoundary(or: Orientation, o: FlagOptions, low: real): real
  {
    match or
    case Bear => low * (1.0 + o.flagThreshold)
    case Bull => low * (1.0 - o.flagThreshold)
  }

  /** A flag candle that leaves the boundaries ends the scan. */
  predicate Breaches(or: Orientation, o: FlagOptions, c: Candle, high: real, low: real)
  {
    c.high > HighBoundary(or, o, high) || c.low < LowBoundary(or, o, low)
  }

  /** A close beyond the boundary in the direction of the trend is a breakout. */
  predicate BreaksOut(or: Orientation, o: FlagOptions, c: Candle, high: real, low: real)
  {
    match or
    case Bear => c.close < LowBoundary(or, o, low)
    case Bull => c.close > HighBoundary(or, o, high)
  }

  /**
    The flagpole's average volume: its volume over the number of candles from
    the flagpole start to the flag start. When the flag starts at the flagpole
    start the divisor is zero, and the average is an infinity.
  */
  datatype PoleAverage = Finite(v: real) | Unbounded

  function PoleAverageOf(poleLength: nat, poleVolume: real): PoleAverage
  {
    if poleLength == 0 then Unbounded else Finite(poleVolume / poleLength as real)
  }

  /**
    `avgVolumeFlag < avgVolumeFlagpole * volumeDecreaseThreshold`. With a zero
    flagpole length the right side is +Infinity when the volume and the
    threshold have the same sign, -Infinity when they differ, and NaN when
    either is zero.
  */
  predicate VolumeDriesUp(o: FlagOptions, poleLength: nat, poleVolume: real, averageFlag: real)
  {
    if poleLength == 0 then poleVolume * o.volumeDecreaseThreshold > 0.0
    else averageFlag < (poleVolume / poleLength as real) * o.volumeDecreaseThreshold
  }

  /** The four conditions on a breakout: volume dried up in the flag, the breakout volume, the flag duration, the span. */
  predicate Accepted(o: FlagOptions, poleLength: nat, poleVolume: real, averageFlag: real,
                     breakoutVolume: real, duration: nat, span: int)
  {
    VolumeDriesUp(o, poleLength, poleVolume, averageFlag) &&
    breakoutVolume > averageFlag * o.breakoutVolumeIncrease &&
    duration >= o.minFlagDuration &&
    span <= o.maxPatternDuration
  }

  /** The scanner's variables: flagStart is -1 while the flagpole is still growing. */
  datatype ScanState = ScanState(flagStart: int, high: real, low: real,
                                 poleVolume: real, flagVolume: real, flagDuration: nat)

  /**
    The state before the flagpole start is looked at. The bear scanner starts
    its high at 0 and the bull scanner at -Infinity, both lows at +Infinity;
    -Infinity and +Infinity are written as the flagpole start's own high and
    low, which the first step folds in with no change.
  */
  function StartState(or: Orientation, d: seq<Option<Candle>>, fps: nat): ScanState
    requires fps < |d| && d[fps].Some?
  {
    ScanState(-1, InitialHigh(or, d[fps].value), d[fps].value.low, 0.0, 0.0, 0)
  }

  function InitialHigh(or: Orientation, first: Candle): real
  {
    match or
    case Bear => 0.0
    case Bull => first.high
  }

  predicate Good(fps: nat, i: nat, s: ScanState)
  {
    s.flagVolume >= 0.0 && (s.flagStart == -1 || fps <= s.flagStart < i)
  }

  datatype StepResult = Next(state: ScanState) | Breach | Breakout(result: FlagResult)

  /** One turn of the scanning loop at index i. */
  function Step(or: Orientation, o: FlagOptions, d: seq<Option<Candle>>, fps: nat, i: nat, s: ScanState): (t: StepResult)
    requires Sane(d) && fps <= i < |d| && Good(fps, i, s)
    ensures t.Next? ==> Good(fps, i + 1, t.state)
    ensures t.Breakout? ==> t.result.Found?
  {
    if d[i].None? then Next(s)
    else
      var c := d[i].value;
      if s.flagStart == -1 then
        var begins := i > 0 && d[i - 1].Some? && FlagBegins(or, c, d[i - 1].value);
        Next(ScanState(if begins then i else -1, Max(s.high, c.high), Min(s.low, c.low),
                       s.poleVolume + c.volume, s.flagVolume, s.flagDuration))
      else
        var duration := s.flagDuration + 1;
        var flagVolume := s.flagVolume + c.volume;
        if Breaches(or, o, c, s.high, s.low) then Breach
        else
          var poleLength: nat := s.flagStart - fps;
          var averageFlag := flagVolume / duration as real;
          if BreaksOut(or, o, c, s.high, s.low) &&
             Accepted(o, poleLength, s.poleVolume, averageFlag, c.volume, duration, i - fps)
          then
            var averagePole := PoleAverageOf(poleLength, s.poleVolume);
            var height := s.high - s.low;
            var target := match or case Bear => c.low - height case Bull => c.high + height;
            Breakout(Found(target, height, PatternScore(or, d, fps, s.flagStart, i, averagePole, averageFlag),
                           fps, s.flagStart, i))
          else Next(ScanState(s.flagStart, s.high, s.low, s.poleVolume, flagVolume, duration))
  }

  /** The rest of the scanning loop from index i on. */
  function ScanFrom(or: Orientation, o: FlagOptions, d: seq<Option<Candle>>, fps: nat, i: nat, s: ScanState): FlagResult
    requires Sane(d) && fps <= i && Good(fps, i, s)
    decreases |d| - i
  {
    if i >= |d| then NoPattern
    else
      match Step(or, o, d, fps, i, s)
      case Next(s') => ScanFrom(or, o, d, fps, i + 1, s')
      case Breach => NoPattern
      case Breakout(r) => r
  }

  /**
    What getBearFlagSignal (Bear) and getBullFlagSignal (Bull) answer for the
    fetched candles: too few candles is reported before any scanning, a
    missing flagpole next.
  */
  function Flag(or: Orientation, o: FlagOptions, period: int, data: Option<seq<Option<Candle>>>): (r: FlagResult)
    requires data.Some? ==> Sane(data.value)
    ensures r == InsufficientData <==> data.None? || |data.value| < period
    ensures r == NoTrend <==> data.Some? && |data.value| >= period &&
                              forall j :: 1 <= j < |data.value| ==> !PoleAt(or, o, data.value, j)
  {
    if data.None? || |data.value| < period then InsufficientData
    else
      var d := data.value;
      match FirstPole(or, o, d, 1)
      case None => NoTrend
      case Some(fps) =>
        var r := ScanFrom(or, o, d, fps, fps, StartState(or, d, fps));
        FoundOnly(or, o, d, fps, fps, StartState(or, d, fps));
        r
  }

  /** The scanning loop ends in no pattern or in a found one. */
  lemma {:induction false} FoundOnly(or: Orientation, o: FlagOptions, d: seq<Option<Candle>>, fps: nat, i: nat, s: ScanState)
    requires Sane(d) && fps <= i && Good(fps, i, s)
    ensures ScanFrom(or, o, d, fps, i, s) == NoPattern || ScanFrom(or, o, d, fps, i, s).Found?
    decreases |d| - i
  {
    if i < |d| {
      var t := Step(or, o, d, fps, i, s);
      if t.Next? {
        FoundOnly(or, o, d, fps, i + 1, t.state);
      }
    }
  }

  // ---------------------------------------------------------------- the pattern score

  /**
    calculatePatternScore (Bear) and calculateBullFlagPatternScore (Bull):
    40 points per unit of flagpole strength, up to 20 for a flag of 7 candles,
    20 per unit of volume decrease and 20 per unit of breakout strength,
    rounded and capped at 100. There is no lower clamp.
  */
  function PatternScore(or: Orientation, d: seq<Option<Candle>>, fps: int, fs: int, bi: int,
                        averagePole: PoleAverage, averageFlag: real): (s: int)
    requires Sane(d)
    requires averagePole.Finite? ==> averagePole.v != 0.0
    ensures s <= 100
    ensures At(d, fps).None? || At(d, fs - 1).None? || At(d, bi).None? || At(d, bi - 1).None? ==> s == 0
  {
    if At(d, fps).None? || At(d, fs - 1).None? || At(d, bi).None? || At(d, bi - 1).None? then 0
    else IntMin(Round(RawScore(or, d[fps].value, d[fs - 1].value, d[bi - 1].value, d[bi].value,
                               bi - fs, averagePole, averageFlag)), 100)
  }

  function RawScore(or: Orientation, poleStart: Candle, beforeFlag: Candle, beforeBreakout: Candle, breakout: Candle,
                    flagLength: int, averagePole: PoleAverage, averageFlag: real): real
    requires poleStart.high > 0.0 && poleStart.low > 0.0 && beforeBreakout.close > 0.0
    requires averagePole.Finite? ==> averagePole.v != 0.0
  {
    Strength(or, poleStart, beforeFlag) * 40.0 +
    DurationScore(flagLength) +
    VolumeDecrease(averagePole, averageFlag) * 20.0 +
    BreakoutStrength(or, beforeBreakout, breakout) * 20.0
  }

  function Strength(or: Orientation, poleStart: Candle, beforeFlag: Candle): real
    requires poleStart.high > 0.0 && poleStart.low > 0.0
  {
    match or
    case Bear => (poleStart.high - beforeFlag.low) / poleStart.high
    case Bull => (beforeFlag.high - poleStart.low) / poleStart.low
  }

  function DurationScore(flagLength: int): real
  {
    (1.0 - Abs(flagLength as real - 7.0) / 7.0) * 20.0
  }

  /** `1 - avgFlag / avgFlagpole`; dividing by an infinite average gives 0, so the decrease is 1. */
  function VolumeDecrease(averagePole: PoleAverage, averageFlag: real): real
    requires averagePole.Finite? ==> averagePole.v != 0.0
  {
    match averagePole
    case Unbounded => 1.0
    case Finite(v) => 1.0 - averageFlag / v
  }

  function BreakoutStrength(or: Orientation, beforeBreakout: Candle, breakout: Candle): real
    requires beforeBreakout.close > 0.0
  {
    match or
    case Bear => (beforeBreakout.close - breakout.close) / beforeBreakout.close
    case Bull => (breakout.close - beforeBreakout.close) / beforeBreakout.close
  }

  /** The running score of the source, one term added at a time. */
  method CalculatePatternScore(or: Orientation, d: seq<Option<Candle>>, fps: int, fs: int, bi: int,
                               averagePole: PoleAverage, averageFlag: real) returns (score: int)
    requires Sane(d)
    requires averagePole.Finite? ==> averagePole.v != 0.0
    ensures score <= 100
    ensures score == PatternScore(or, d, fps, fs, bi, averagePole, averageFlag)
  {
    if At(d, fps).None? || At(d, fs - 1).None? || At(d, bi).None? || At(d, bi - 1).None? {
      return 0;
    }
    var total := 0.0;
    total := total + Strength(or, d[fps].value, d[fs - 1].value) * 40.0;
    total := total + DurationScore(bi - fs);
    total := total + VolumeDecrease(averagePole, averageFlag) * 20.0;
    total := total + BreakoutStrength(or, d[bi - 1].value, d[bi].value) * 20.0;
    score := IntMin(Round(total), 100);
  }

  /** The comment's "between 0 and 100" does not hold: identical candles, a 28-candle flag and doubled volume score -60. */
  lemma ScoreCanBeNegative()
    ensures PatternScore(Bear, seq(30, k => Some(Candle(1.0, 1.0, 1.0, 1.0, 1.0))), 0, 1, 29, Finite(1.0), 2.0) == -60
  {
    var d := seq(30, k => Some(Candle(1.0, 1.0, 1.0, 1.0, 1.0)));
    assert d[0] == d[28] == d[29] == Some(Candle(1.0, 1.0, 1.0, 1.0, 1.0));
    var raw := RawScore(Bear, d[0].value, d[0].value, d[28].value, d[29].value, 28, Finite(1.0), 2.0);
    assert DurationScore(28) == -40.0;
    assert raw == -60.0;
  }

  // ---------------------------------------------------------------- the scanning method

  /**
    getBearFlagSignal / getBullFlagSignal after the fetch: the length check,
    the search for the flagpole start, then the flagpole and flag phases.
  */
  method ScanFlag(or: Orientation, o: FlagOptions, period: int, data: Option<seq<Option<Candle>>>) returns (r: FlagResult)
    requires data.Some? ==> Sane(data.value)
    ensures r == Flag(or, o, period, data)
  {
    if data.None? || |data.value| < period {
      return InsufficientData;
    }
    var d := data.value;
    var flagpoleStart := FindFlagpoleStart(or, o, d);
    if flagpoleStart == -1 {
      return NoTrend;
    }
    r := ScanFlagFrom(or, o, d, flagpoleStart);
  }

  /** The first loop: the flagpole start, or -1 when no pair of candles makes a significant move. */
  method FindFlagpoleStart(or: Orientation, o: FlagOptions, d: seq<Option<Candle>>) returns (flagpoleStart: int)
    ensures flagpoleStart == -1 <==> FirstPole(or, o, d, 1).None?
    ensures flagpoleStart != -1 ==> FirstPole(or, o, d, 1) == Some(flagpoleStart)
  {
    flagpoleStart := -1;
    var i := 1;
    while i < |d|
      invariant 1 <= i && flagpoleStart == -1
      invariant FirstPole(or, o, d, i) == FirstPole(or, o, d, 1)
      decreases |d| - i
    {
      if PoleAt(or, o, d, i) {
        flagpoleStart := i - 1;
        break;
      }
      i := i + 1;
    }
  }

  /**
    The second loop, from the flagpole start: it grows the flagpole until the
    first close against the trend, then counts the flag until a boundary
    breach (no pattern) or an accepted breakout (found).
  */
  method ScanFlagFrom(or: Orientation, o: FlagOptions, d: seq<Option<Candle>>, fps: nat) returns (r: FlagResult)
    requires Sane(d) && fps < |d| && d[fps].Some?
    ensures r == ScanFrom(or, o, d, fps, fps, StartState(or, d, fps))
  {
    var start := StartState(or, d, fps);
    var flagStart, flagpoleHigh, flagpoleLow := -1, start.high, start.low;
    var volumeDuringFlagpole, volumeDuringFlag, flagDuration: nat := 0.0, 0.0, 0;
    var j := fps;
    while j < |d|
      invariant fps <= j
      invariant Good(fps, j, ScanState(flagStart, flagpoleHigh, flagpoleLow, volumeDuringFlagpole, volumeDuringFlag, flagDuration))
      invariant ScanFrom(or, o, d, fps, j, ScanState(flagStart, flagpoleHigh, flagpoleLow, volumeDuringFlagpole, volumeDuringFlag, flagDuration))
             == ScanFrom(or, o, d, fps, fps, start)
      decreases |d| - j
    {
      ghost var s := ScanState(flagStart, flagpoleHigh, flagpoleLow, volumeDuringFlagpole, volumeDuringFlag, flagDuration);
      ghost var t := Step(or, o, d, fps, j, s);
      if d[j].None? {
        j := j + 1;
        continue;
      }
      var c := d[j].value;
      if flagStart == -1 {
        flagpoleHigh := Max(flagpoleHigh, c.high);
        flagpoleLow := Min(flagpoleLow, c.low);
        volumeDuringFlagpole := volumeDuringFlagpole + c.volume;
        if j > 0 && d[j - 1].Some? && FlagBegins(or, c, d[j - 1].value) {
          flagStart := j;
        }
        assert t == Next(ScanState(flagStart, flagpoleHigh, flagpoleLow, volumeDuringFlagpole, volumeDuringFlag, flagDuration));
      } else {
        flagDuration := flagDuration + 1;
        volumeDuringFlag := volumeDuringFlag + c.volume;
        if Breaches(or, o, c, flagpoleHigh, flagpoleLow) {
          assert t == Breach;
          break;
        }
        if BreaksOut(or, o, c, flagpoleHigh, flagpoleLow) {
          var found := AcceptBreakout(or, o, d, fps, flagStart, j, flagpoleHigh, flagpoleLow,
                                      volumeDuringFlagpole, volumeDuringFlag, flagDuration);
          if found.Some? {
            assert t == Breakout(found.value);
            return found.value;
          }
        }
        assert t == Next(ScanState(flagStart, flagpoleHigh, flagpoleLow, volumeDuringFlagpole, volumeDuringFlag, flagDuration));
      }
      j := j + 1;
    }
    return NoPattern;
  }

  /**
    A candle that closes beyond the boundary: the pattern is reported when
    the four acceptance tests pass, with its target and its score.
  */
  method AcceptBreakout(or: Orientation, o: FlagOptions, d: seq<Option<Candle>>, fps: nat, flagStart: int, j: nat,
                        flagpoleHigh: real, flagpoleLow: real, volumeDuringFlagpole: real, volumeDuringFlag: real,
                        flagDuration: nat) returns (found: Option<FlagResult>)
    requires Sane(d) && fps <= flagStart < j < |d| && d[j].Some? && flagDuration > 0 && volumeDuringFlag >= 0.0
    ensures var averageFlag := volumeDuringFlag / flagDuration as real;
            found.Some? <==> Accepted(o, flagStart - fps, volumeDuringFlagpole, averageFlag, d[j].value.volume, flagDuration, j - fps)
    ensures var averageFlag := volumeDuringFlag / flagDuration as real;
            var height := flagpoleHigh - flagpoleLow;
            found.Some? ==>
              found.value == Found(match or case Bear => d[j].value.low - height case Bull => d[j].value.high + height,
                                   height,
                                   PatternScore(or, d, fps, flagStart, j, PoleAverageOf(flagStart - fps, volumeDuringFlagpole), averageFlag),
                                   fps, flagStart, j)
  {
    var c := d[j].value;
    var poleLength: nat := flagStart - fps;
    var averageFlag := volumeDuringFlag / flagDuration as real;
    if !Accepted(o, poleLength, volumeDuringFlagpole, averageFlag, c.volume, flagDuration, j - fps) {
      return None;
    }
    var averagePole := PoleAverageOf(poleLength, volumeDuringFlagpole);
    var score := CalculatePatternScore(or, d, fps, flagStart, j, averagePole, averageFlag);
    var height := flagpoleHigh - flagpoleLow;
    var target := if or == Bear then c.low - height else c.high + height;
    found := Some(Found(target, height, score, fps, flagStart, j));
  }

  /** getBearFlagSignal after the fetch. */
  method GetBearFlagSignal(o: FlagOptions, period: int, data: Option<seq<Option<Candle>>>) returns (r: FlagResult)
    requires data.Some? ==> Sane(data.value)
    ensures r == Flag(Bear, o, period, data)
  {
    r := ScanFlag(Bear, o, period, data);
  }

  /** getBullFlagSignal after the fetch. */
  method GetBullFlagSignal(o: FlagOptions, period: int, data: Option<seq<Option<Candle>>>) returns (r: FlagResult)
    requires data.Some? ==> Sane(data.value)
    ensures r == Flag(Bull, o, period, data)
  {
    r := ScanFlag(Bull, o, period, data);
  }

  // ---------------------------------------------------------------- what a found pattern satisfies

  /** The highest high of the present candles in [lo, hi), folded onto `init`. */
  function HighOver(d: seq<Option<Candle>>, lo: nat, hi: nat, init: real): real
    requires lo <= hi <= |d|
    decreases hi
  {
    if hi == lo then init
    else if d[hi - 1].Some? then Max(HighOver(d, lo, hi - 1, init), d[hi - 1].value.high)
    else HighOver(d, lo, hi - 1, init)
  }

  /** The lowest low of the present candles in [lo, hi), folded onto `init`. */
  function LowOver(d: seq<Option<Candle>>, lo: nat, hi: nat, init: real): real
    requires lo <= hi <= |d|
    decreases hi
  {
    if hi == lo then init
    else if d[hi - 1].Some? then Min(LowOver(d, lo, hi - 1, init), d[hi - 1].value.low)
    else LowOver(d, lo, hi - 1, init)
  }

  /** The volume of the present candles in [lo, hi). */
  function VolumeSum(d: seq<Option<Candle>>, lo: nat, hi: nat): real
    requires lo <= hi <= |d|
    decreases hi
  {
    if hi == lo then 0.0
    else VolumeSum(d, lo, hi - 1) + (if d[hi - 1].Some? then d[hi - 1].value.volume else 0.0)
  }

  /** The number of present candles in [lo, hi). */
  function PresentCount(d: seq<Option<Candle>>, lo: nat, hi: nat): nat
    requires lo <= hi <= |d|
    decreases hi
  {
    if hi == lo then 0
    else PresentCount(d, lo, hi - 1) + (if d[hi - 1].Some? then 1 else 0)
  }

  /**
    A found pattern: the flagpole start, the flag start and the breakout come
    in that order within the maximal span; the flag begins with a close
    against the trend; the flagpole envelope is the highest high and lowest
    low from the flagpole start to the flag start; the height is their
    difference and the target is measured from the breakout candle's low
    (bear) or high (bull); the flag lasts at least the minimal number of
    present candles, stays inside its boundaries, its average volume dries up
    against the flagpole's and the breakout candle's volume exceeds it by the
    required factor; and the score is at most 100.
  */
  ghost predicate FoundShape(or: Orientation, o: FlagOptions, d: seq<Option<Candle>>, fps: nat, r: FlagResult)
  {
    r.Found? ==>
      FoundSpan(o, d, fps, r) && FoundEnvelope(or, o, d, r) && FoundFlag(or, o, d, r) && r.patternScore <= 100
  }

  /** The three indices in order within the maximal span, and the candles at them present. */
  ghost predicate FoundSpan(o: FlagOptions, d: seq<Option<Candle>>, fps: nat, r: FlagResult)
    requires r.Found?
  {
    var fs, bi := r.flagStart, r.breakoutIndex;
    r.flagpoleStart == fps && fps <= fs < bi < |d| && bi - fps <= o.maxPatternDuration &&
    d[fps].Some? && d[bi].Some? && fs > 0 && d[fs].Some? && d[fs - 1].Some?
  }

  /** The highest high from the flagpole start to the flag start. */
  function PoleHigh(or: Orientation, d: seq<Option<Candle>>, fps: nat, fs: nat): real
    requires fps <= fs < |d| && d[fps].Some?
  {
    HighOver(d, fps, fs + 1, InitialHigh(or, d[fps].value))
  }

  /** The lowest low from the flagpole start to the flag start. */
  function PoleLow(d: seq<Option<Candle>>, fps: nat, fs: nat): real
    requires fps <= fs < |d| && d[fps].Some?
  {
    LowOver(d, fps, fs + 1, d[fps].value.low)
  }

  /**
    The flag begins with a close against the trend; the height is the
    envelope's span and the target is measured from the breakout candle; the
    breakout closes beyond the boundary and no flag candle up to it breaches.
  */
  ghost predicate FoundEnvelope(or: Orientation, o: FlagOptions, d: seq<Option<Candle>>, r: FlagResult)
    requires r.Found? && FoundSpan(o, d, r.flagpoleStart, r)
  {
    var fps, fs, bi := r.flagpoleStart, r.flagStart, r.breakoutIndex;
    var high, low := PoleHigh(or, d, fps, fs), PoleLow(d, fps, fs);
    var breakout := d[bi].value;
    FlagBegins(or, d[fs].value, d[fs - 1].value) &&
    r.flagpoleHeight == high - low &&
    r.targetPrice == (match or case Bear => breakout.low - r.flagpoleHeight case Bull => breakout.high + r.flagpoleHeight) &&
    BreaksOut(or, o, breakout, high, low) &&
    forall k :: fs < k <= bi && d[k].Some? ==> !Breaches(or, o, d[k].value, high, low)
  }

  /**
    The flag lasts at least the minimal number of present candles, its
    average volume dries up against the flagpole's, and the breakout
    candle's volume exceeds it by the required factor.
  */
  ghost predicate FoundFlag(or: Orientation, o: FlagOptions, d: seq<Option<Candle>>, r: FlagResult)
    requires r.Found? && FoundSpan(o, d, r.flagpoleStart, r)
  {
    var fps, fs, bi := r.flagpoleStart, r.flagStart, r.breakoutIndex;
    var duration := PresentCount(d, fs + 1, bi + 1);
    duration > 0 && duration >= o.minFlagDuration &&
    var averageFlag := VolumeSum(d, fs + 1, bi + 1) / duration as real;
    VolumeDriesUp(o, fs - fps, VolumeSum(d, fps, fs + 1), averageFlag) &&
    d[bi].value.volume > averageFlag * o.breakoutVolumeIncrease
  }

  /** The scanner's variables at index i, in terms of the candles before i. */
  ghost predicate Tracks(or: Orientation, o: FlagOptions, d: seq<Option<Candle>>, fps: nat, i: nat, s: ScanState)
    requires fps <= i <= |d| && fps < |d| && d[fps].Some?
  {
    var init, first := InitialHigh(or, d[fps].value), d[fps].value.low;
    if s.flagStart == -1 then
      s.high == HighOver(d, fps, i, init) && s.low == LowOver(d, fps, i, first) &&
      s.poleVolume == VolumeSum(d, fps, i) && s.flagVolume == 0.0 && s.flagDuration == 0
    else
      var fs := s.flagStart;
      fps <= fs < i && fs > 0 && d[fs].Some? && d[fs - 1].Some? && FlagBegins(or, d[fs].value, d[fs - 1].value) &&
      s.high == HighOver(d, fps, fs + 1, init) && s.low == LowOver(d, fps, fs + 1, first) &&
      s.poleVolume == VolumeSum(d, fps, fs + 1) &&
      s.flagVolume == VolumeSum(d, fs + 1, i) && s.flagDuration == PresentCount(d, fs + 1, i) &&
      forall k :: fs < k < i && d[k].Some? ==> !Breaches(or, o, d[k].value, s.high, s.low)
  }

  /** One turn of the loop keeps Tracks, and a breakout it reports has the shape FoundShape describes. */
  lemma StepTracks(or: Orientation, o: FlagOptions, d: seq<Option<Candle>>, fps: nat, i: nat, s: ScanState)
    requires Sane(d) && fps <= i < |d| && d[fps].Some? && Good(fps, i, s) && Tracks(or, o, d, fps, i, s)
    ensures Step(or, o, d, fps, i, s).Next? ==> Tracks(or, o, d, fps, i + 1, Step(or, o, d, fps, i, s).state)
    ensures Step(or, o, d, fps, i, s).Breakout? ==> FoundShape(or, o, d, fps, Step(or, o, d, fps, i, s).result)
  {
    if d[i].None? {
      MissingStepTracks(or, o, d, fps, i, s);
    } else if s.flagStart == -1 {
      PoleStepTracks(or, o, d, fps, i, s);
    } else {
      FlagStepTracks(or, o, d, fps, i, s);
    }
  }

  lemma MissingStepTracks(or: Orientation, o: FlagOptions, d: seq<Option<Candle>>, fps: nat, i: nat, s: ScanState)
    requires Sane(d) && fps <= i < |d| && d[fps].Some? && Good(fps, i, s) && Tracks(or, o, d, fps, i, s)
    requires d[i].None?
    ensures Step(or, o, d, fps, i, s) == Next(s) && Tracks(or, o, d, fps, i + 1, s)
  {
    var init, first := InitialHigh(or, d[fps].value), d[fps].value.low;
    if s.flagStart == -1 {
      assert HighOver(d, fps, i + 1, init) == HighOver(d, fps, i, init);
      assert LowOver(d, fps, i + 1, first) == LowOver(d, fps, i, first);
      assert VolumeSum(d, fps, i + 1) == VolumeSum(d, fps, i);
    } else {
      var fs := s.flagStart;
      assert VolumeSum(d, fs + 1, i + 1) == VolumeSum(d, fs + 1, i);
      assert PresentCount(d, fs + 1, i + 1) == PresentCount(d, fs + 1, i);
    }
  }

  lemma PoleStepTracks(or: Orientation, o: FlagOptions, d: seq<Option<Candle>>, fps: nat, i: nat, s: ScanState)
    requires Sane(d) && fps <= i < |d| && d[fps].Some? && Good(fps, i, s) && Tracks(or, o, d, fps, i, s)
    requires d[i].Some? && s.flagStart == -1
    ensures Step(or, o, d, fps, i, s).Next? && Tracks(or, o, d, fps, i + 1, Step(or, o, d, fps, i, s).state)
  {
    var init, first := InitialHigh(or, d[fps].value), d[fps].value.low;
    var c := d[i].value;
    var high, low := HighOver(d, fps, i + 1, init), LowOver(d, fps, i + 1, first);
    assert high == Max(s.high, c.high);
    assert low == Min(s.low, c.low);
    assert VolumeSum(d, fps, i + 1) == s.poleVolume + c.volume;
    var begins := i > 0 && d[i - 1].Some? && FlagBegins(or, c, d[i - 1].value);
    var next := ScanState(if begins then i else -1, high, low, s.poleVolume + c.volume, s.flagVolume, s.flagDuration);
    assert Step(or, o, d, fps, i, s) == Next(next);
    if begins {
      assert VolumeSum(d, i + 1, i + 1) == 0.0 && PresentCount(d, i + 1, i + 1) == 0;
    }
  }

  lemma FlagStepTracks(or: Orientation, o: FlagOptions, d: seq<Option<Candle>>, fps: nat, i: nat, s: ScanState)
    requires Sane(d) && fps <= i < |d| && d[fps].Some? && Good(fps, i, s) && Tracks(or, o, d, fps, i, s)
    requires d[i].Some? && s.flagStart != -1
    ensures Step(or, o, d, fps, i, s).Next? ==> Tracks(or, o, d, fps, i + 1, Step(or, o, d, fps, i, s).state)
    ensures Step(or, o, d, fps, i, s).Breakout? ==> FoundShape(or, o, d, fps, Step(or, o, d, fps, i, s).result)
  {
    var t := Step(or, o, d, fps, i, s);
    FlagTotals(d, i, s.flagStart, s.flagVolume, s.flagDuration);
    if t.Next? {
      FlagNextTracks(or, o, d, fps, i, s);
    } else if t.Breakout? {
      FlagBreakoutShape(or, o, d, fps, i, s);
    }
  }

  /** A present flag candle adds one to the flag's duration and its volume to the flag's volume. */
  lemma FlagTotals(d: seq<Option<Candle>>, i: nat, fs: int, flagVolume: real, flagDuration: nat)
    requires 0 <= fs < i < |d| && d[i].Some?
    requires flagVolume == VolumeSum(d, fs + 1, i) && flagDuration == PresentCount(d, fs + 1, i)
    ensures flagDuration + 1 == PresentCount(d, fs + 1, i + 1)
    ensures flagVolume + d[i].value.volume == VolumeSum(d, fs + 1, i + 1)
  {
  }

  lemma FlagNextTracks(or: Orientation, o: FlagOptions, d: seq<Option<Candle>>, fps: nat, i: nat, s: ScanState)
    requires Sane(d) && fps <= i < |d| && d[fps].Some? && Good(fps, i, s) && Tracks(or, o, d, fps, i, s)
    requires d[i].Some? && s.flagStart != -1
    requires s.flagDuration + 1 == PresentCount(d, s.flagStart + 1, i + 1)
    requires s.flagVolume + d[i].value.volume == VolumeSum(d, s.flagStart + 1, i + 1)
    requires Step(or, o, d, fps, i, s).Next?
    ensures Tracks(or, o, d, fps, i + 1, Step(or, o, d, fps, i, s).state)
  {
    var c := d[i].value;
    assert Step(or, o, d, fps, i, s).state
        == ScanState(s.flagStart, s.high, s.low, s.poleVolume, s.flagVolume + c.volume, s.flagDuration + 1);
    assert !Breaches(or, o, c, s.high, s.low);
  }

  lemma FlagBreakoutShape(or: Orientation, o: FlagOptions, d: seq<Option<Candle>>, fps: nat, i: nat, s: ScanState)
    requires Sane(d) && fps <= i < |d| && d[fps].Some? && Good(fps, i, s) && Tracks(or, o, d, fps, i, s)
    requires d[i].Some? && s.flagStart != -1
    requires s.flagDuration + 1 == PresentCount(d, s.flagStart + 1, i + 1)
    requires s.flagVolume + d[i].value.volume == VolumeSum(d, s.flagStart + 1, i + 1)
    requires Step(or, o, d, fps, i, s).Breakout?
    ensures FoundShape(or, o, d, fps, Step(or, o, d, fps, i, s).result)
  {
    BreakoutSpan(or, o, d, fps, i, s);
    BreakoutEnvelope(or, o, d, fps, i, s);
    BreakoutFlag(or, o, d, fps, i, s);
  }

  lemma BreakoutSpan(or: Orientation, o: FlagOptions, d: seq<Option<Candle>>, fps: nat, i: nat, s: ScanState)
    requires Sane(d) && fps <= i < |d| && d[fps].Some? && Good(fps, i, s) && Tracks(or, o, d, fps, i, s)
    requires d[i].Some? && s.flagStart != -1
    requires s.flagDuration + 1 == PresentCount(d, s.flagStart + 1, i + 1)
    requires s.flagVolume + d[i].value.volume == VolumeSum(d, s.flagStart + 1, i + 1)
    requires Step(or, o, d, fps, i, s).Breakout?
    ensures FoundSpan(o, d, fps, Step(or, o, d, fps, i, s).result)
  {
    BreakoutResult(or, o, d, fps, i, s);
  }

  lemma BreakoutEnvelope(or: Orientation, o: FlagOptions, d: seq<Option<Candle>>, fps: nat, i: nat, s: ScanState)
    requires Sane(d) && fps <= i < |d| && d[fps].Some? && Good(fps, i, s) && Tracks(or, o, d, fps, i, s)
    requires d[i].Some? && s.flagStart != -1
    requires s.flagDuration + 1 == PresentCount(d, s.flagStart + 1, i + 1)
    requires s.flagVolume + d[i].value.volume == VolumeSum(d, s.flagStart + 1, i + 1)
    requires Step(or, o, d, fps, i, s).Breakout?
    ensures FoundSpan(o, d, fps, Step(or, o, d, fps, i, s).result)
    ensures FoundEnvelope(or, o, d, Step(or, o, d, fps, i, s).result)
  {
    BreakoutResult(or, o, d, fps, i, s);
    BreakoutSpan(or, o, d, fps, i, s);
  }

  lemma BreakoutFlag(or: Orientation, o: FlagOptions, d: seq<Option<Candle>>, fps: nat, i: nat, s: ScanState)
    requires Sane(d) && fps <= i < |d| && d[fps].Some? && Good(fps, i, s) && Tracks(or, o, d, fps, i, s)
    requires d[i].Some? && s.flagStart != -1
    requires s.flagDuration + 1 == PresentCount(d, s.flagStart + 1, i + 1)
    requires s.flagVolume + d[i].value.volume == VolumeSum(d, s.flagStart + 1, i + 1)
    requires Step(or, o, d, fps, i, s).Breakout?
    ensures FoundSpan(o, d, fps, Step(or, o, d, fps, i, s).result)
    ensures FoundFlag(or, o, d, Step(or, o, d, fps, i, s).result)
  {
    BreakoutResult(or, o, d, fps, i, s);
    BreakoutSpan(or, o, d, fps, i, s);
  }

  /** A reported breakout, written out: its result and the tests its candle passed. */
  lemma BreakoutResult(or: Orientation, o: FlagOptions, d: seq<Option<Candle>>, fps: nat, i: nat, s: ScanState)
    requires Sane(d) && fps <= i < |d| && Good(fps, i, s)
    requires d[i].Some? && s.flagStart != -1
    requires Step(or, o, d, fps, i, s).Breakout?
    ensures var c, fs := d[i].value, s.flagStart;
            var duration, flagVolume := s.flagDuration + 1, s.flagVolume + c.volume;
            var averageFlag := flagVolume / duration as real;
            var height := s.high - s.low;
            !Breaches(or, o, c, s.high, s.low) && BreaksOut(or, o, c, s.high, s.low) &&
            Accepted(o, fs - fps, s.poleVolume, averageFlag, c.volume, duration, i - fps) &&
            Step(or, o, d, fps, i, s).result.flagpoleStart == fps &&
            Step(or, o, d, fps, i, s).result.flagStart == fs &&
            Step(or, o, d, fps, i, s).result.breakoutIndex == i &&
            Step(or, o, d, fps, i, s).result.flagpoleHeight == height &&
            Step(or, o, d, fps, i, s).result.targetPrice == (match or case Bear => c.low - height case Bull => c.high + height)
  {
  }

  lemma {:induction false} ScanFoundShape(or: Orientation, o: FlagOptions, d: seq<Option<Candle>>, fps: nat, i: nat, s: ScanState)
    requires Sane(d) && fps <= i <= |d| && fps < |d| && d[fps].Some? && Good(fps, i, s) && Tracks(or, o, d, fps, i, s)
    ensures FoundShape(or, o, d, fps, ScanFrom(or, o, d, fps, i, s))
    decreases |d| - i
  {
    if i < |d| {
      StepTracks(or, o, d, fps, i, s);
      var t := Step(or, o, d, fps, i, s);
      if t.Next? {
        ScanFoundShape(or, o, d, fps, i + 1, t.state);
      }
    }
  }

  /**
    Every pattern either scanner reports has the shape FoundShape describes,
    and its flagpole start is the first significant move in the data.
  */
  lemma FoundPattern(or: Orientation, o: FlagOptions, period: int, data: Option<seq<Option<Candle>>>)
    requires data.Some? ==> Sane(data.value)
    ensures Flag(or, o, period, data).Found? ==>
      data.Some? && FoundShape(or, o, data.value, Flag(or, o, period, data).flagpoleStart, Flag(or, o, period, data))
    ensures Flag(or, o, period, data).Found? ==>
      var fps := Flag(or, o, period, data).flagpoleStart;
      data.Some? && fps + 1 < |data.value| && PoleAt(or, o, data.value, fps + 1) &&
      forall j :: 1 <= j <= fps ==> !PoleAt(or, o, data.value, j)
  {
    if data.Some? && |data.value| >= period {
      var d := data.value;
      var p := FirstPole(or, o, d, 1);
      if p.Some? {
        ScanFoundShape(or, o, d, p.value, p.value, StartState(or, d, p.value));
      }
    }
  }

  /**
    The boundary is tested before the breakout: a bear breakout needs a close
    under the low boundary that the candle's low did not cross, a bull one a
    close over the high boundary that its high did not cross. A candle whose
    close lies between its low and high can do neither.
  */
  lemma {:induction false} WellFormedScanNeverFinds(or: Orientation, o: FlagOptions, d: seq<Option<Candle>>, fps: nat, i: nat, s: ScanState)
    requires Sane(d) && WellFormed(d) && fps <= i && Good(fps, i, s)
    ensures !ScanFrom(or, o, d, fps, i, s).Found?
    decreases |d| - i
  {
    if i < |d| {
      var t := Step(or, o, d, fps, i, s);
      if t.Next? {
        WellFormedScanNeverFinds(or, o, d, fps, i + 1, t.state);
      }
    }
  }

  /** Neither scanner ever reports a pattern on well-formed candles. */
  lemma WellFormedNeverFound(or: Orientation, o: FlagOptions, period: int, data: Option<seq<Option<Candle>>>)
    requires data.Some? ==> Sane(data.value) && WellFormed(data.value)
    ensures !Flag(or, o, period, data).Found?
  {
    if data.Some? && |data.value| >= period {
      var d := data.value;
      var p := FirstPole(or, o, d, 1);
      if p.Some? {
        WellFormedScanNeverFinds(or, o, d, p.value, p.value, StartState(or, d, p.value));
      }
    }
  }
}
