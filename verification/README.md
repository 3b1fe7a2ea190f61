# Signal engine of the crypto prediction server, in Dafny

This project models the decision core of the prediction server. That core has six parts:

- the indicator evaluators (RSI, MACD, Bollinger bands, Fibonacci retracement, VOSC and the EMA crossover), which turn one reading into a signal `{direction, value}`;
- the weighted vote of `evaluateAssetDirection`, which turns the signals into "rise", "fall" or "neutral";
- the target-price estimate `estimateTargetPrice`;
- the bear-flag and bull-flag scanners with their pattern score;
- the older, threshold-only engine of `backend/server.js`;
- that engine's `slopeCheck`-driven bear-flag scan.

The model is split into modules:

- `Common` (common.dfy) holds candles and signals. A signal's `value` is either a number (`Vote(n)`) or the string `'00'` (`NeutralMark`). The module also defines the JavaScript numerics the engine relies on: `Math.round`, `toFixed(4)`, division by zero giving an infinity or NaN, and `toLowerCase`.
- `Votes` (votes.dfy) holds the vote tally shared by both servers. The weight table is a parameter, and the order-independence of the tally is proved once for both tables.
- `Indicators` (indicators.dfy) holds the server.js evaluators.
- `FlagPattern` (flag_pattern.dfy) holds both server.js flag scanners.
  - One state machine, parameterised by `Orientation`, covers both. It keeps their asymmetries: the flagpole tests, the flag boundaries, the initial high and the target.
  - The scanning methods are proved equal to a specification function (`Flag`, `ScanFrom`, `Step`).
  - Lemmas state what every reported pattern satisfies.
- `Consensus` (consensus.dfy) holds `evaluateAssetDirection` and `estimateTargetPrice` of server.js.
- `Legacy` (legacy.dfy) holds the evaluators, the tally and the bear-flag scan of `backend/server.js`.

The source's loops are methods with loop invariants, each proved against a function:

- the vote count;
- `getExtremeRSIDuration`;
- the flagpole search;
- the flag scan;
- the legacy bear-flag scan.

The straight-line running sums of the estimate and the pattern score are methods as well, proved equal to a sum over the blocks or terms. Code that only computes a value is a function.

## Model

| member | source | states |
|---|---|---|
| Common.Round | server.js:509 | `Math.round` lands within half a unit of its argument, a half going up |
| Common.ToFixed4 | backend/server.js:278-279 | `Number(x.toFixed(4))` has four decimals and lies in (x - 0.00005, x + 0.00005] for x ≥ 0 and in [x - 0.00005, x + 0.00005) for x < 0, so a half rounds away from zero |
| Common.FourDecimalsUnique | backend/server.js:278-279 | a four-decimal number within (y - 0.00005, y + 0.00005] is the rounded y, so the window and the four decimals pin the rounding down |
| Common.QuotientAboveAgrees | server.js:891-894 | for a non-zero divisor, the division-free comparisons used for `x / y > t` and `x / y < t` agree with real division |
| Common.LowerCase | server.js:975-978 | `toLowerCase` keeps the length and lower-cases each character |
| Votes.Verdict | server.js:1126-1128 | "rise" or "fall" exactly on a strict majority over both other counts, otherwise "neutral" |
| Votes.VoteSide | server.js:1116-1122 | weights 0 and -1 count as rise, 1 and 2 as fall, every other weight as neutral, in both directions |
| Votes.TallyOfPermutation | server.js:1115-1123 | the counts do not depend on the order of the predictions |
| Votes.TallyByWeight | server.js:1115-1123 | rise = #0 + 2·#(-1), fall = #1 + 2·#2, neutral = every other prediction |
| Indicators.Volatility | server.js:768-773 | the volatility is never negative |
| Indicators.VolatilityAdjustment | server.js:801-805 | the adjustment lies in [0, 10]; the overbought threshold lies in [70, 80] and the oversold one in [20, 30] |
| Indicators.ExtremeRun | server.js:776-787 | the run at the end of the history is beyond the threshold, and the reading before it is not |
| Indicators.ExtremeRunUnique | server.js:776-787 | only one length has that property |
| Indicators.GetExtremeRsiDuration | server.js:776-787 | the backwards loop returns exactly that run length |
| Indicators.Rsi | server.js:790-827 | an empty history is neutral; otherwise the strong fall vote holds exactly over 70 plus the volatility adjustment and the strong rise vote exactly under 30 minus it (so always over 80 and never at or under 70, always under 20 and never at or over 30); between those thresholds the momentum votes hold exactly when the reading lies between 50 and the previous one; every signal is counted on the side it names |
| Indicators.Macd | server.js:829-879 | the direction is the MACD line against the signal line, in all three directions; the weights without divergence; with divergence the weight rises by one, capped at 2, so a plain rise becomes a fall vote; equal lines without divergence carry the '00' mark |
| Indicators.BandSignalWith | server.js:881-929 | fall above the upper band and rise below the lower band, in both directions; the %B cut-offs 1.05 and -0.05; the squeeze (bandwidth under 0.1) sends the band trend with weight 3; inside the bands the signal is neutral when the bandwidth is at least 0.1, the middle band is 0 or the trend is unknown (one or no earlier reading); zero-width bands (infinite %B) give weight 2 above and the far-below weight below; the %B and bandwidth ratios |
| Indicators.BollingerBands | server.js:906-908 | as written, a close far below the lower band is rise with weight 2, which the tally counts as a fall |
| Indicators.FarBelowCountsAsFall | server.js:906-908 | a concrete close at 90 under bands 100..110 gives two fall votes |
| Indicators.BollingerBandsIntended | server.js:906-908 | the corrected evaluator counts every signal outside the bands on the side its direction names |
| Indicators.Nearest | server.js:943-945 | the reported level is one of the levels and none of them is nearer |
| Indicators.NearestFirst | server.js:943-945 | on a tie the earlier level wins: every level as near as the reported one has it at or before its position |
| Indicators.Strength | server.js:986-995 | "unknown" exactly below five readings; otherwise strong exactly when the mean of the last five is under 38.2, weak exactly when it is over 61.8, moderate in between; a strong trend has a reading under 38.2 among the last five, a weak one a reading over 61.8 |
| Indicators.FibonacciRetracement | server.js:931-984 | never neutral; fall exactly over 61.8 on "DOWNTREND" and from 38.2 on any other tag; the weight for every tag and trend strength: a strong trend raises the weight only when the lower-cased tag names the signal's direction ("rise" or "fall"), a weak trend when it does not, capped at 2, including a weak trend turning a rise into a fall vote |
| Indicators.VoscTrend | server.js:1044-1057 | "unknown" exactly below five readings; rising and falling compare the last two readings with the first two |
| Indicators.PriceTrend | server.js:1059-1069 | null exactly on a short history or a missing or zero first price; otherwise rise exactly when the newest of the last five prices exceeds the oldest of them, fall exactly when it is below, and neutral when one of them is missing or they are equal |
| Indicators.Vosc | server.js:997-1042 | the direction is the sign of the reading; the strong weights hold exactly when the VOSC trend agrees |
| Indicators.EmaCrossover | server.js:1101-1103 | rise exactly on an upward cross and fall exactly on a downward cross; the signal is counted on its own side; otherwise it is neutral with the '00' mark |
| FlagPattern.FirstPole | server.js:401-410 | the first index with a significant move, with none before it, or none at all |
| FlagPattern.FindFlagpoleStart | server.js:401-410 | the flagpole-search loop returns FirstPole, or -1 when there is no flagpole |
| FlagPattern.Flag | server.js:387-410 | too few candles exactly when the data is missing or shorter than the period; no trend exactly when no pair of candles makes a significant move |
| FlagPattern.FoundOnly | server.js:413-481 | the scanning loop ends in no pattern or in a found pattern |
| FlagPattern.ScanFlagFrom | server.js:413-481 | the flagpole and flag loop computes the step function's result |
| FlagPattern.AcceptBreakout | server.js:440-466 | a breakout is reported exactly when the four acceptance tests hold, with the target measured from the breakout candle and the score |
| FlagPattern.ScanFlag | server.js:387-481 | the bear and bull scanners after the fetch equal Flag |
| FlagPattern.GetBearFlagSignal | server.js:367-482 | the bear scanner equals Flag(Bear) |
| FlagPattern.GetBullFlagSignal | server.js:512-625 | the bull scanner equals Flag(Bull) |
| FlagPattern.PatternScore | server.js:484-510 | the score is at most 100, and 0 when a candle it reads is missing |
| FlagPattern.CalculatePatternScore | server.js:627-653 | the running sum of the four terms equals PatternScore and is at most 100 |
| FlagPattern.ScoreCanBeNegative | server.js:509 | the score has no lower clamp: for these arguments (a 28-candle flag whose average volume is twice the flagpole's) the score function returns -60 |
| FlagPattern.FoundPattern | server.js:413-469 | every reported pattern has the order, span, flagpole envelope, height, target, duration, boundary and volume properties of a flag, and its flagpole start is the first significant move in the data |
| FlagPattern.WellFormedNeverFound | server.js:432-454 | on candles whose close lies between low and high, neither scanner ever reports a pattern, because the boundary test runs before the breakout test |
| Consensus.EvaluateAssetDirection | server.js:1111-1129 | the counting loop computes Verdict of the tally; no predictions is neutral |
| Consensus.VerdictByWeight | server.js:1111-1129 | the verdict in terms of the number of predictions of each weight |
| Consensus.VerdictOrderFree | server.js:1111-1129 | permuting the predictions does not change the verdict |
| Consensus.ContributionScores | server.js:1139-1191 | every block adds nothing or exactly its fixed increment to the confidence score |
| Consensus.ScoreAtMostSix | server.js:1139-1191 | the confidence score lies in [0, 6] |
| Consensus.EstimateTargetPrice | server.js:1131-1205 | the percentage and score are the sums over the six blocks; the target moves the price by the percentage; the confidence is score/7·100 and stays within [0, 600/7], below 100 |
| Consensus.FullAgreementScoresSix | server.js:1196-1198 | with every block agreeing, the score is 6, so the confidence tops out at 600/7 |
| Consensus.IntendedConfidence | server.js:1196-1198 | normalised by 6, the confidence lies in [0, 100] |
| Consensus.FullAgreementIsCertain | server.js:1196-1198 | under that normalisation full agreement is 100 |
| Legacy.LegacySide | backend/server.js:356-360 | weight 0 counts as rise, 1 as fall, and everything else as neutral, in both directions |
| Legacy.EvaluateAssetDirection | backend/server.js:351-367 | the counting loop computes Verdict of the legacy tally; no predictions is neutral |
| Legacy.LegacyTallyByWeight | backend/server.js:356-360 | rise = #0, fall = #1, neutral = every other prediction |
| Legacy.LegacyVerdictOrderFree | backend/server.js:351-367 | permuting the predictions does not change the legacy verdict |
| Legacy.Rsi | backend/server.js:254-262 | fall exactly over 70, rise exactly under 30, neutral in between with the '00' mark; each counted on its own side |
| Legacy.BollingerBands | backend/server.js:275-285 | the price against the bands rounded to four decimals; the unrounded cut-offs within 0.00005; a neutral signal carries the '00' mark |
| Legacy.FibonacciRetracement | backend/server.js:287-298 | never neutral; on "DOWNTREND" fall exactly when the rounded value exceeds 61.8, otherwise rise exactly below 38.2 |
| Legacy.FibonacciCutoffs | backend/server.js:288-297 | on the unrounded value the cut-offs are 61.80005 and 38.19995 |
| Legacy.Vosc | backend/server.js:300-311 | the direction is the sign of the reading; at zero the signal is neutral with the '00' mark |
| Legacy.EmaCrossoverLegacy | backend/server.js:342-344 | the legacy EMA decision is the server.js one; the legacy tally counts it on its own side and gives it the same vote as the server.js tally |
| Legacy.GetBearFlagSignal | backend/server.js:171-252 | the loop with its breaks, then the breakout and slope tests, equals BearFlagOf |
| Legacy.SlopeCheckMonotone | backend/server.js:189-227 | `slopeCheck` only goes from true to false, and it ends false exactly when the loop broke |
| Legacy.FoundBearFlag | backend/server.js:229-245 | a reported flag comes from a loop without a break, with a last close at or under the low boundary; the height and target are given |
| Legacy.NoDownCloseNoFlag | backend/server.js:191-234 | when the closes never fall and the last close is positive, no flag is reported |

## Left out

- Fetching from the market-data and EMA APIs, the Express handlers and the 'all' wiring are not modelled. The model starts from the fetched values. A failed fetch throws in the source and is rethrown as an error; that path is not modelled. `None` stands for a response without data (`!data`).
- The per-request display state, the `reason` texts and console logging are not modelled.
- `drawBearFlag`, `logFlagPattern`, `determineProfitability`, the frontend and the database models are not modelled.
- NaN and infinities are modelled only where the engine can produce them from finite inputs, namely division by zero in the Bollinger ratios, the flag averages and the score. Inputs that are themselves NaN or infinite are not modelled.
- Numbers are reals. Floating-point rounding of sums and quotients is not modelled; `Math.round` and `toFixed(4)` are modelled exactly on reals; on binary doubles a tie such as 1.00005 is not always rounded up, and that is not modelled.
- Indicators.Volatility: `Math.sqrt` is a parameter known only to be non-negative on non-negative inputs, so the model states no exact root.
- Common.LowerCase: only ASCII letters are lower-cased.
- Indicators.Macd: requires a history of at least two readings. The source reads the second newest reading and throws a TypeError on a shorter history.
- The macdFormula of backend/server.js is not modelled. It compares the two `toFixed(4)` strings lexicographically, and the model has no decimal-string form of numbers. Its signal does enter the legacy vote (backend/server.js:98-99, 111); the legacy tally lemmas hold for any signal.
- FlagPattern.Flag: the scanners require prices that are positive and volumes that are not negative (`Sane`). The source divides by them; the model does not follow a zero or negative price into NaN.
- The `candleData` echo of the scanners' answers is not modelled. The `flagpoleThreshold` option is a field of `FlagOptions`, but neither scanner reads it. The unused `flagThreshold` of backend/server.js:184 is not modelled either.
- Indicators.PriceTrend feeds only the VOSC reason text, so the VOSC signal does not depend on it.
- Indicators.PriceTrend: a missing price (`None`) is an undefined one. A JSON `null` price, which JavaScript compares as 0 (so `null < 5` holds and gives a fall), is not modelled.
- Legacy.GetBearFlagSignal: an empty candle array throws in the source and is rethrown as a failure; the model returns `Failed`.
- Legacy.GetBearFlagSignal: every candle of the array is present. A null candle, on which the source throws a TypeError that is rethrown, cannot be expressed.
- Consensus.EstimateTargetPrice: requires a non-zero current price when a flag counts. With a zero price the source divides the flagpole height by zero (server.js:1184-1188) and produces an infinite or NaN percentage and target, which the model does not represent.
- Indicators.Rsi with an empty history: the volatility is 0/0, so both thresholds are NaN and every comparison fails; like the code, the model gives neutral for any reading.
- FlagPattern.PatternScore has no lower bound: the source's comment promises 0..100, but only the cap at 100 holds (see ScoreCanBeNegative).

## Findings

| source | as written | input that shows it | evidently intended | confidence | as-written member | corrected member |
|---|---|---|---|---|---|---|
| server.js:906-908 | a close far below the lower band gets weight 2, which the tally counts as two fall votes although the direction is rise | price 90, bands 100..110 (%B = -1) | a strong rise vote (weight -1) | high, not executed | Indicators.FarBelowCountsAsFall | Indicators.BollingerBandsIntended |
| server.js:1196-1198 | the confidence is divided by 7, but the six blocks add up to at most 6, so the confidence never reaches 100 | RSI 20, MACD, Fibonacci and VOSC rising, price at the lower band, a bull flag: score 6, confidence 600/7 | divide by the reachable maximum 6 | medium, not executed | Consensus.FullAgreementScoresSix | Consensus.IntendedConfidence |
