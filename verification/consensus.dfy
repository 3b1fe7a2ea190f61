/**
  The two consumers of the indicator signals in server.js: the weighted vote
  of evaluateAssetDirection and the target-price estimate of
  estimateTargetPrice.
*/
module Consensus {
  import opened Common
  import opened Votes

  // ---------------------------------------------------------------- evaluateAssetDirection

  /**
    evaluateAssetDirection: one pass over the predictions counting each weight
    by the server.js table, then the strict-majority verdict.
  */
  method EvaluateAssetDirection(predictions: seq<Signal>) returns (verdict: Direction)
    ensures verdict == Verdict(TallyOf(Ballot, predictions))
    ensures predictions == [] ==> verdict == Neutral
    ensures verdict == Rise || verdict == Fall || verdict == Neutral
  {
    var riseCount, fallCount, neutralCount := 0, 0, 0;
    for k := 0 to |predictions|
      invariant Tally(riseCount, fallCount, neutralCount) == TallyOf(Ballot, predictions[..k])
    {
      TallyOfStep(predictions, k);
      riseCount, fallCount, neutralCount := CountVote(predictions[k].weight, riseCount, fallCount, neutralCount);
    }
    assert predictions[..|predictions|] == predictions;
    if riseCount > fallCount && riseCount > neutralCount {
      return Rise;
    }
    if fallCount > riseCount && fallCount > neutralCount {
      return Fall;
    }
    return Neutral;
  }

  /** The body of the counting loop: one prediction's weight added to the counts by the server.js table. */
  method CountVote(value: Weight, riseCount: nat, fallCount: nat, neutralCount: nat)
    returns (rise: nat, fall: nat, neutral: nat)
    ensures Tally(rise, fall, neutral) == Add(Tally(riseCount, fallCount, neutralCount), Ballot(value))
  {
    rise, fall, neutral := riseCount, fallCount, neutralCount;
    if value == Vote(0) {
      rise := rise + 1;
    } else if value == Vote(1) {
      fall := fall + 1;
    } else if value == Vote(2) {
      fall := fall + 2;
    } else if value == Vote(-1) {
      rise := rise + 2;
    } else {
      neutral := neutral + 1;
    }
  }

  lemma TallyOfStep(s: seq<Signal>, k: nat)
    requires k < |s|
    ensures TallyOf(Ballot, s[..k + 1]) == Add(TallyOf(Ballot, s[..k]), Ballot(s[k].weight))
  {
    assert s[..k + 1][..k] == s[..k];
  }

  /**
    The verdict counted weight by weight: "rise" exactly when the 0s plus
    twice the -1s outnumber both the 1s plus twice the 2s and the signals of
    any other weight; "fall" symmetrically.
  */
  lemma VerdictByWeight(s: seq<Signal>)
    ensures var rise, fall := Count(s, Vote(0)) + 2 * Count(s, Vote(-1)), Count(s, Vote(1)) + 2 * Count(s, Vote(2));
            var neutral := |s| - Count(s, Vote(0)) - Count(s, Vote(-1)) - Count(s, Vote(1)) - Count(s, Vote(2));
            (Verdict(TallyOf(Ballot, s)) == Rise <==> rise > fall && rise > neutral) &&
            (Verdict(TallyOf(Ballot, s)) == Fall <==> fall > rise && fall > neutral)
  {
    TallyByWeight(s);
  }

  /** The verdict does not depend on the order of the predictions. */
  lemma VerdictOrderFree(s: seq<Signal>, t: seq<Signal>)
    requires multiset(s) == multiset(t)
    ensures Verdict(TallyOf(Ballot, s)) == Verdict(TallyOf(Ballot, t))
  {
    TallyOfPermutation(Ballot, s, t);
  }

  // ---------------------------------------------------------------- estimateTargetPrice

  datatype Bands = Bands(lower: real, upper: real)

  /**
    The readings the estimate looks at: the RSI value, the directions of the
    MACD, Fibonacci and VOSC signals, and the Bollinger bands (None when a
    band is missing: the position is then NaN and contributes nothing).
  */
  datatype TechnicalData = TechnicalData(rsi: real, macd: Direction, bollinger: Option<Bands>,
                                         fibonacci: Direction, vosc: Direction)

  /** The flag pattern ('bull', 'bear' or none) and its flagpole height (None when absent). */
  datatype PatternData = PatternData(flagPattern: Option<Orientation>, flagpoleHeight: Option<real>)

  datatype TargetEstimate = TargetEstimate(currentPrice: real, targetPrice: real,
                                           priceChangePercentage: real, confidence: real)

  /** One block's share: a percentage move and a confidence increment. */
  datatype Contribution = Contribution(percent: real, score: real)

  const NoContribution := Contribution(0.0, 0.0)

  /** A flagpole height counts when it is there and not zero (a falsy height contributes nothing). */
  predicate FlagCounts(pattern: PatternData)
  {
    pattern.flagPattern.Some? && pattern.flagpoleHeight.Some? && pattern.flagpoleHeight.value != 0.0
  }

  /**
    The six blocks of the estimate, in their order: RSI (+-2 %, 1), MACD
    (+-1.5 %, 1), the position in the Bollinger bands (+-2 %, 1), Fibonacci
    (+-1 %, 0.5), VOSC (+-1 %, 0.5) and the flag (+-height/price %, 2).
  */
  function Contributions(currentPrice: real, technical: TechnicalData, pattern: PatternData): (cs: seq<Contribution>)
    requires currentPrice != 0.0 || !FlagCounts(pattern)
    ensures |cs| == 6
  {
    [ RsiContribution(technical.rsi),
      DirectionContribution(technical.macd, 1.5, 1.0),
      BandsContribution(currentPrice, technical.bollinger),
      DirectionContribution(technical.fibonacci, 1.0, 0.5),
      DirectionContribution(technical.vosc, 1.0, 0.5),
      FlagContribution(currentPrice, pattern) ]
  }

  function RsiContribution(rsi: real): Contribution
  {
    if rsi < 30.0 then Contribution(2.0, 1.0)
    else if rsi > 70.0 then Contribution(-2.0, 1.0)
    else NoContribution
  }

  /** The position of the price in the bands, `(price - lower) / (upper - lower)`, under 0.2 or over 0.8. */
  function BandsContribution(currentPrice: real, bollinger: Option<Bands>): Contribution
  {
    match bollinger
    case None => NoContribution
    case Some(b) =>
      if QuotientBelow(currentPrice - b.lower, b.upper - b.lower, 0.2) then Contribution(2.0, 1.0)
      else if QuotientAbove(currentPrice - b.lower, b.upper - b.lower, 0.8) then Contribution(-2.0, 1.0)
      else NoContribution
  }

  function FlagContribution(currentPrice: real, pattern: PatternData): Contribution
    requires currentPrice != 0.0 || !FlagCounts(pattern)
  {
    if !FlagCounts(pattern) then NoContribution
    else
      var move := pattern.flagpoleHeight.value / currentPrice * 100.0;
      match pattern.flagPattern.value
      case Bull => Contribution(move, 2.0)
      case Bear => Contribution(-move, 2.0)
  }

  function DirectionContribution(d: Direction, percent: real, score: real): Contribution
  {
    if d == Rise then Contribution(percent, score)
    else if d == Fall then Contribution(-percent, score)
    else NoContribution
  }

  /** The most each block can add to the confidence score. */
  const MaxScores: seq<real> := [1.0, 1.0, 1.0, 0.5, 0.5, 2.0]

  function PercentSum(cs: seq<Contribution>): real
  {
    if cs == [] then 0.0 else PercentSum(cs[..|cs| - 1]) + cs[|cs| - 1].percent
  }

  function ScoreSum(cs: seq<Contribution>): real
  {
    if cs == [] then 0.0 else ScoreSum(cs[..|cs| - 1]) + cs[|cs| - 1].score
  }

  /** Every block adds nothing or exactly its fixed increment to the confidence score. */
  lemma ContributionScores(currentPrice: real, technical: TechnicalData, pattern: PatternData)
    requires currentPrice != 0.0 || !FlagCounts(pattern)
    ensures var cs := Contributions(currentPrice, technical, pattern);
            forall k :: 0 <= k < 6 ==> cs[k].score == 0.0 || cs[k].score == MaxScores[k]
  {
  }

  lemma SumsOfSix(cs: seq<Contribution>)
    requires |cs| == 6
    ensures PercentSum(cs) == cs[0].percent + cs[1].percent + cs[2].percent + cs[3].percent + cs[4].percent + cs[5].percent
    ensures ScoreSum(cs) == cs[0].score + cs[1].score + cs[2].score + cs[3].score + cs[4].score + cs[5].score
  {
    assert cs[..6] == cs;
    SumsSnoc(cs, 0);
    SumsSnoc(cs, 1);
    SumsSnoc(cs, 2);
    SumsSnoc(cs, 3);
    SumsSnoc(cs, 4);
    SumsSnoc(cs, 5);
  }

  lemma SumsSnoc(cs: seq<Contribution>, k: nat)
    requires k < |cs|
    ensures PercentSum(cs[..k + 1]) == PercentSum(cs[..k]) + cs[k].percent
    ensures ScoreSum(cs[..k + 1]) == ScoreSum(cs[..k]) + cs[k].score
  {
    assert cs[..k + 1][..k] == cs[..k];
  }

  /** The two sums written out block by block. */
  lemma SumsOfBlocks(currentPrice: real, technical: TechnicalData, pattern: PatternData)
    requires currentPrice != 0.0 || !FlagCounts(pattern)
    ensures PercentSum(Contributions(currentPrice, technical, pattern))
         == RsiContribution(technical.rsi).percent + DirectionContribution(technical.macd, 1.5, 1.0).percent
          + BandsContribution(currentPrice, technical.bollinger).percent
          + DirectionContribution(technical.fibonacci, 1.0, 0.5).percent
          + DirectionContribution(technical.vosc, 1.0, 0.5).percent + FlagContribution(currentPrice, pattern).percent
    ensures ScoreSum(Contributions(currentPrice, technical, pattern))
         == RsiContribution(technical.rsi).score + DirectionContribution(technical.macd, 1.5, 1.0).score
          + BandsContribution(currentPrice, technical.bollinger).score
          + DirectionContribution(technical.fibonacci, 1.0, 0.5).score
          + DirectionContribution(technical.vosc, 1.0, 0.5).score + FlagContribution(currentPrice, pattern).score
  {
    SumsOfSix(Contributions(currentPrice, technical, pattern));
  }

  /** The confidence score lies between 0 and 6, the sum of the fixed increments. */
  lemma ScoreAtMostSix(currentPrice: real, technical: TechnicalData, pattern: PatternData)
    requires currentPrice != 0.0 || !FlagCounts(pattern)
    ensures 0.0 <= ScoreSum(Contributions(currentPrice, technical, pattern)) <= 6.0
  {
    ContributionScores(currentPrice, technical, pattern);
    SumsOfSix(Contributions(currentPrice, technical, pattern));
  }

  /**
    estimateTargetPrice: the blocks add to a running percentage and a running
    confidence score; the target is the current price moved by the
    percentage, and the confidence is the score over the constant 7, times
    100. The score cannot exceed 6, so the confidence stays at or below
    600/7 (about 85.7) and never reaches 100.
  */
  method EstimateTargetPrice(currentPrice: real, technical: TechnicalData, pattern: PatternData) returns (e: TargetEstimate)
    requires currentPrice != 0.0 || !FlagCounts(pattern)
    ensures e.currentPrice == currentPrice
    ensures e.priceChangePercentage == PercentSum(Contributions(currentPrice, technical, pattern))
    ensures e.targetPrice == currentPrice * (1.0 + e.priceChangePercentage / 100.0)
    ensures e.confidence == ScoreSum(Contributions(currentPrice, technical, pattern)) / 7.0 * 100.0
    ensures 0.0 <= e.confidence <= 600.0 / 7.0 < 100.0
  {
    var priceChangePercentage, confidenceScore := AccumulateBlocks(currentPrice, technical, pattern);
    ScoreAtMostSix(currentPrice, technical, pattern);
    ConfidenceBound(confidenceScore);
    var targetPrice := currentPrice * (1.0 + priceChangePercentage / 100.0);
    var normalizedConfidence := confidenceScore / 7.0 * 100.0;
    e := TargetEstimate(currentPrice, targetPrice, priceChangePercentage, normalizedConfidence);
  }

  /** The six blocks in their order, each adding its share to the running percentage and score. */
  method AccumulateBlocks(currentPrice: real, technical: TechnicalData, pattern: PatternData)
    returns (priceChangePercentage: real, confidenceScore: real)
    requires currentPrice != 0.0 || !FlagCounts(pattern)
    ensures priceChangePercentage == PercentSum(Contributions(currentPrice, technical, pattern))
    ensures confidenceScore == ScoreSum(Contributions(currentPrice, technical, pattern))
  {
    priceChangePercentage, confidenceScore := 0.0, 0.0;
    priceChangePercentage, confidenceScore := AddRsi(technical.rsi, priceChangePercentage, confidenceScore);
    priceChangePercentage, confidenceScore := AddDirection(technical.macd, 1.5, 1.0, priceChangePercentage, confidenceScore);
    priceChangePercentage, confidenceScore := AddBands(currentPrice, technical.bollinger, priceChangePercentage, confidenceScore);
    priceChangePercentage, confidenceScore := AddDirection(technical.fibonacci, 1.0, 0.5, priceChangePercentage, confidenceScore);
    priceChangePercentage, confidenceScore := AddDirection(technical.vosc, 1.0, 0.5, priceChangePercentage, confidenceScore);
    priceChangePercentage, confidenceScore := AddFlag(currentPrice, pattern, priceChangePercentage, confidenceScore);
    SumsOfBlocks(currentPrice, technical, pattern);
  }

  /** A score between 0 and 6, normalised by 7, is a confidence between 0 and 600/7, short of 100. */
  lemma ConfidenceBound(score: real)
    requires 0.0 <= score <= 6.0
    ensures 0.0 <= score / 7.0 * 100.0 <= 600.0 / 7.0 < 100.0
  {
  }

  /** The RSI block: oversold (under 30) adds 2 %, overbought (over 70) takes 2 %; either adds 1 to the score. */
  method AddRsi(rsi: real, percent: real, score: real) returns (percent': real, score': real)
    ensures percent' == percent + RsiContribution(rsi).percent
    ensures score' == score + RsiContribution(rsi).score
  {
    percent', score' := percent, score;
    if rsi < 30.0 {
      percent', score' := percent' + 2.0, score' + 1.0;
    } else if rsi > 70.0 {
      percent', score' := percent' - 2.0, score' + 1.0;
    }
  }

  /** The MACD, Fibonacci and VOSC blocks: a "rise" adds `move` %, a "fall" takes it, and either adds `weight`. */
  method AddDirection(d: Direction, move: real, weight: real, percent: real, score: real) returns (percent': real, score': real)
    ensures percent' == percent + DirectionContribution(d, move, weight).percent
    ensures score' == score + DirectionContribution(d, move, weight).score
  {
    percent', score' := percent, score;
    if d == Rise {
      percent', score' := percent' + move, score' + weight;
    } else if d == Fall {
      percent', score' := percent' - move, score' + weight;
    }
  }

  /** The Bollinger block: a position under 0.2 adds 2 %, over 0.8 takes 2 %; either adds 1. */
  method AddBands(currentPrice: real, bollinger: Option<Bands>, percent: real, score: real) returns (percent': real, score': real)
    ensures percent' == percent + BandsContribution(currentPrice, bollinger).percent
    ensures score' == score + BandsContribution(currentPrice, bollinger).score
  {
    percent', score' := percent, score;
    if bollinger.Some? {
      var b := bollinger.value;
      if QuotientBelow(currentPrice - b.lower, b.upper - b.lower, 0.2) {
        percent', score' := percent' + 2.0, score' + 1.0;
      } else if QuotientAbove(currentPrice - b.lower, b.upper - b.lower, 0.8) {
        percent', score' := percent' - 2.0, score' + 1.0;
      }
    }
  }

  /** The flag block: a bull flag adds, a bear flag takes, the flagpole height as a percentage of the price; either adds 2. */
  method AddFlag(currentPrice: real, pattern: PatternData, percent: real, score: real) returns (percent': real, score': real)
    requires currentPrice != 0.0 || !FlagCounts(pattern)
    ensures percent' == percent + FlagContribution(currentPrice, pattern).percent
    ensures score' == score + FlagContribution(currentPrice, pattern).score
  {
    percent', score' := percent, score;
    if pattern.flagPattern == Some(Bull) && FlagCounts(pattern) {
      percent' := percent' + pattern.flagpoleHeight.value / currentPrice * 100.0;
      score' := score' + 2.0;
    } else if pattern.flagPattern == Some(Bear) && FlagCounts(pattern) {
      percent' := percent' - pattern.flagpoleHeight.value / currentPrice * 100.0;
      score' := score' + 2.0;
    }
  }

  /** Every block agreeing on a rise: the score is 6, the most it can be. */
  lemma FullAgreementScoresSix()
    ensures ScoreSum(Contributions(100.0, TechnicalData(20.0, Rise, Some(Bands(100.0, 110.0)), Rise, Rise),
                                   PatternData(Some(Bull), Some(5.0)))) == 6.0
  {
    var cs := Contributions(100.0, TechnicalData(20.0, Rise, Some(Bands(100.0, 110.0)), Rise, Rise),
                            PatternData(Some(Bull), Some(5.0)));
    SumsOfSix(cs);
    assert cs[0].score == cs[1].score == cs[2].score == 1.0;
    assert cs[3].score == cs[4].score == 0.5;
    assert cs[5].score == 2.0;
  }

  /**
    The evidently intended normalisation: over the reachable maximum 6, so
    that the confidence lies in [0, 100] and full agreement gives 100.
  */
  function IntendedConfidence(currentPrice: real, technical: TechnicalData, pattern: PatternData): (c: real)
    requires currentPrice != 0.0 || !FlagCounts(pattern)
    ensures 0.0 <= c <= 100.0
  {
    var cs := Contributions(currentPrice, technical, pattern);
    ScoreAtMostSix(currentPrice, technical, pattern);
    ScoreSum(cs) / 6.0 * 100.0
  }

  /** Under the intended normalisation full agreement is 100 % confidence. */
  lemma FullAgreementIsCertain()
    ensures IntendedConfidence(100.0, TechnicalData(20.0, Rise, Some(Bands(100.0, 110.0)), Rise, Rise),
                               PatternData(Some(Bull), Some(5.0))) == 100.0
  {
    FullAgreementScoresSix();
  }
}
