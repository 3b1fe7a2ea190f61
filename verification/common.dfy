/**
  Values shared by the signal engine of both servers: candles, the signal
  records the indicator evaluators return, and the numeric helpers that stand
  for the JavaScript library calls the engine makes (Math.round, toFixed,
  division by zero, toLowerCase).
*/
module Common {

  datatype Option<+T> = None | Some(value: T)

  /** One OHLCV sample of a candle series; the timestamp plays no part in any decision. */
  datatype Candle = Candle(open: real, high: real, low: real, close: real, volume: real)

  /** The two flag patterns: a bear flag follows a downtrend, a bull flag an uptrend. */
  datatype Orientation = Bear | Bull

  /**
    The `direction` string of a signal. `Up` and `Down` are produced only by the
    Bollinger squeeze, which copies its band trend ('up' or 'down') into the direction.
  */
  datatype Direction = Rise | Fall | Neutral | Up | Down

  function DirectionName(d: Direction): string
  {
    match d
    case Rise => "rise"
    case Fall => "fall"
    case Neutral => "neutral"
    case Up => "up"
    case Down => "down"
  }

  /** The `value` field of a signal: a number, or the string '00' that marks a neutral signal. */
  datatype Weight = Vote(n: int) | NeutralMark

  datatype Signal = Signal(direction: Direction, weight: Weight)

  const NeutralSignal := Signal(Neutral, NeutralMark)

  function Abs(x: real): real
  {
    if x < 0.0 then -x else x
  }

  function Min(x: real, y: real): real
  {
    if x <= y then x else y
  }

  function Max(x: real, y: real): real
  {
    if x >= y then x else y
  }

  function IntMin(x: int, y: int): int
  {
    if x <= y then x else y
  }

  /** Math.round: the nearest integer, a half rounded towards +infinity. */
  function Round(x: real): (r: int)
    ensures x - 0.5 < r as real <= x + 0.5
  {
    (x + 0.5).Floor
  }

  /** Number(x.toFixed(4)): x rounded to four decimals, a half rounded away from zero. */
  function ToFixed4(x: real): (r: real)
    ensures (r * 10000.0).Floor as real == r * 10000.0
    ensures x >= 0.0 ==> x - 0.00005 < r <= x + 0.00005
    ensures x < 0.0 ==> x - 0.00005 <= r < x + 0.00005
  {
    if x < 0.0 then
      NegatedFourDecimals(HalfUp4(-x));
      -HalfUp4(-x)
    else HalfUp4(x)
  }

  lemma NegatedFourDecimals(h: real)
    requires (h * 10000.0).Floor as real == h * 10000.0
    ensures ((-h) * 10000.0).Floor as real == (-h) * 10000.0
  {
    var m := (h * 10000.0).Floor;
    assert (-h) * 10000.0 == (-m) as real;
  }

  /** y rounded to four decimals, a half rounded up: the only four-decimal number in (y - 0.00005, y + 0.00005]. */
  function HalfUp4(y: real): (r: real)
    ensures (r * 10000.0).Floor as real == r * 10000.0
    ensures y - 0.00005 < r <= y + 0.00005
  {
    ((y * 10000.0 + 0.5).Floor as real) / 10000.0
  }

  /** Any four-decimal number within (y - 0.00005, y + 0.00005] is HalfUp4(y): the rounding is determined by its window. */
  lemma FourDecimalsUnique(y: real, q: real)
    requires (q * 10000.0).Floor as real == q * 10000.0
    requires y - 0.00005 < q <= y + 0.00005
    ensures q == HalfUp4(y)
  {
    var m := (q * 10000.0).Floor;
    var n := (y * 10000.0 + 0.5).Floor;
    assert y * 10000.0 - 0.5 < m as real <= y * 10000.0 + 0.5;
    assert y * 10000.0 - 0.5 < n as real <= y * 10000.0 + 0.5;
    assert -1 < m - n < 1;
    assert q == m as real / 10000.0;
  }

  function Sum(xs: seq<real>): real
  {
    if xs == [] then 0.0 else Sum(xs[..|xs| - 1]) + xs[|xs| - 1]
  }

  function Mean(xs: seq<real>): real
    requires |xs| > 0
  {
    Sum(xs) / |xs| as real
  }

  /**
    `x / y > t` as JavaScript evaluates it for finite x, y and t: dividing a
    positive number by zero gives +Infinity, a negative one -Infinity, and 0 / 0
    gives NaN, which fails every comparison.
  */
  predicate QuotientAbove(x: real, y: real, t: real)
  {
    if y > 0.0 then x > t * y
    else if y < 0.0 then x < t * y
    else x > 0.0
  }

  /** `x / y < t` as JavaScript evaluates it for finite x, y and t (see QuotientAbove). */
  predicate QuotientBelow(x: real, y: real, t: real)
  {
    if y > 0.0 then x < t * y
    else if y < 0.0 then x > t * y
    else x < 0.0
  }

  lemma QuotientAboveAgrees(x: real, y: real, t: real)
    ensures y != 0.0 ==> (QuotientAbove(x, y, t) <==> x / y > t)
    ensures y != 0.0 ==> (QuotientBelow(x, y, t) <==> x / y < t)
  {
    if y == 0.0 {
      return;
    }
    var q := x / y;
    assert x == q * y;
    if y > 0.0 {
      assert q > t <==> q * y > t * y;
      assert q < t <==> q * y < t * y;
    } else {
      assert q > t <==> q * y < t * y;
      assert q < t <==> q * y > t * y;
    }
  }

  /** String.prototype.toLowerCase on the ASCII letters. */
  function LowerCase(s: string): (r: string)
    ensures |r| == |s|
    ensures forall k :: 0 <= k < |s| ==> r[k] == LowerChar(s[k])
  {
    if s == [] then [] else LowerCase(s[..|s| - 1]) + [LowerChar(s[|s| - 1])]
  }

  function LowerChar(c: char): char
  {
    if 'A' <= c <= 'Z' then (c as int + 32) as char else c
  }
}
