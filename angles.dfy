/**
  Angle utilities of the cusp calculator: sexagesimal input to signed
  decimal degrees, reduction of a longitude into [0, 360), and the split of a
  longitude into zodiac sign, degrees, minutes and seconds.
  Numbers are exact reals; `Math.floor` is `.Floor`, `Math.round(x)` is
  `(x + 0.5).Floor`, and JavaScript's `%` is a remainder truncated toward zero.
*/
module AngleUtils {
  import opened Wrappers

  /** The twelve sign names, zero-indexed from Aries (0 to 30 degrees) to Pisces. */
  const Signs: seq<string> := [
    "Áries", "Touro", "Gêmeos", "Câncer", "Leão", "Virgem",
    "Libra", "Escorpião", "Sagitário", "Capricórnio", "Aquário", "Peixes"
  ]

  function Abs(x: real): real
  {
    if x < 0.0 then -x else x
  }

  /** `(v || 0)` for a numeric argument that may be absent. */
  function OrZero(v: Option<real>): real
  {
    if v.Some? then v.value else 0.0
  }

  /** `dir === 'S' || dir === 'W'`: strict comparison with one-letter strings. */
  predicate IsSouthOrWest(dir: Option<string>)
  {
    dir == Some("S") || dir == Some("W")
  }

  /** The unsigned value `|deg| + min/60 + sec/3600`, absent parts counting as 0. */
  function Magnitude(deg: real, min: Option<real>, sec: Option<real>): real
  {
    Abs(deg) + OrZero(min) / 60.0 + OrZero(sec) / 3600.0
  }

  /** `dmsToDec`: degrees, minutes, seconds and a hemisphere letter to signed decimal degrees. */
  function DmsToDec(deg: real, min: Option<real>, sec: Option<real>, dir: Option<string>): (r: real)
    ensures r == Magnitude(deg, min, sec) || r == -Magnitude(deg, min, sec)
    ensures Magnitude(deg, min, sec) != 0.0 ==> (r == -Magnitude(deg, min, sec) <==> IsSouthOrWest(dir))
    ensures OrZero(min) >= 0.0 && OrZero(sec) >= 0.0 ==>
              Abs(r) == Magnitude(deg, min, sec) && (!IsSouthOrWest(dir) ==> r >= 0.0) && (IsSouthOrWest(dir) ==> r <= 0.0)
  {
    var val := Magnitude(deg, min, sec);
    if IsSouthOrWest(dir) then -val else val
  }

  /** A missing minute or second is the same as a zero one. */
  lemma MissingPartsAreZero(deg: real, min: Option<real>, sec: Option<real>, dir: Option<string>)
    ensures DmsToDec(deg, None, sec, dir) == DmsToDec(deg, Some(0.0), sec, dir)
    ensures DmsToDec(deg, min, None, dir) == DmsToDec(deg, min, Some(0.0), dir)
    ensures DmsToDec(deg, None, None, dir) == (if IsSouthOrWest(dir) then -Abs(deg) else Abs(deg))
  {
  }

  /** 23 degrees 33 minutes 9 seconds South is exactly -23.5525; North or no letter gives +23.5525. */
  lemma DmsToDecExample()
    ensures DmsToDec(23.0, Some(33.0), Some(9.0), Some("S")) == -23.5525
    ensures DmsToDec(23.0, Some(33.0), Some(9.0), Some("N")) == 23.5525
    ensures DmsToDec(23.0, Some(33.0), Some(9.0), None) == 23.5525
    ensures DmsToDec(-23.0, Some(33.0), Some(9.0), Some("W")) == -23.5525
  {
  }

  /** Truncation toward zero, as JavaScript's `%` uses it. */
  function Trunc(q: real): int
  {
    if q >= 0.0 then q.Floor else -((-q).Floor)
  }

  /** `d` is a whole number of turns of 360 degrees. */
  predicate IsWholeTurns(d: real)
  {
    (d / 360.0).Floor as real == d / 360.0
  }

  /** JavaScript's `a % 360`: the remainder has the sign of `a`. */
  function Rem360(a: real): (r: real)
    ensures a >= 0.0 ==> 0.0 <= r < 360.0
    ensures a < 0.0 ==> -360.0 < r <= 0.0
    ensures IsWholeTurns(a - r)
  {
    a - 360.0 * Trunc(a / 360.0) as real
  }

  lemma WholeTurnsOf(k: int)
    ensures IsWholeTurns(360.0 * k as real)
  {
    assert (360.0 * k as real) / 360.0 == k as real;
  }

  lemma WholeTurnsSum(a: real, b: real)
    requires IsWholeTurns(a) && IsWholeTurns(b)
    ensures IsWholeTurns(a + b) && IsWholeTurns(a - b)
  {
    var j, k := (a / 360.0).Floor, (b / 360.0).Floor;
    assert a + b == 360.0 * (j + k) as real;
    assert a - b == 360.0 * (j - k) as real;
    WholeTurnsOf(j + k);
    WholeTurnsOf(j - k);
  }

  /** Two angles in [0, 360) that differ by whole turns are equal. */
  lemma WholeTurnsUnique(a: real, b: real)
    requires 0.0 <= a < 360.0 && 0.0 <= b < 360.0
    requires IsWholeTurns(a - b)
    ensures a == b
  {
  }

  /** `((deg % 360) + 360) % 360`: the angle reduced into [0, 360). */
  function NormalizeDegrees(x: real): (r: real)
    ensures 0.0 <= r < 360.0
    ensures IsWholeTurns(x - r)
    ensures 0.0 <= x < 360.0 ==> r == x
  {
    var y := Rem360(x);
    var r := Rem360(y + 360.0);
    WholeTurnsSum(x - y, y + 360.0 - r);
    WholeTurnsSum((x - y) + (y + 360.0 - r), 360.0);
    assert x - r == (x - y) + (y + 360.0 - r) - 360.0;
    r
  }

  /** The double remainder is the floor-based modulus. */
  lemma {:induction false} NormalizeIsFloorMod(x: real)
    ensures NormalizeDegrees(x) == x - 360.0 * (x / 360.0).Floor as real
  {
    var f := x - 360.0 * (x / 360.0).Floor as real;
    assert (x - f) / 360.0 == (x / 360.0).Floor as real;
    WholeTurnsSum(x - f, x - NormalizeDegrees(x));
    assert NormalizeDegrees(x) - f == (x - f) - (x - NormalizeDegrees(x));
    WholeTurnsUnique(NormalizeDegrees(x), f);
  }

  /** Normalising twice is normalising once. */
  lemma NormalizeIdempotent(x: real)
    ensures NormalizeDegrees(NormalizeDegrees(x)) == NormalizeDegrees(x)
  {
  }

  /** `Math.round`: the nearest integer, halves rounded up. */
  function Round(x: real): (n: int)
    ensures x - 0.5 < n as real <= x + 0.5
  {
    (x + 0.5).Floor
  }

  /**
    The object `getZodiacSign` returns. `formatted` only concatenates the sign
    name, degrees, minutes and seconds, so it is represented by those fields;
    `absolute` is `grau_absoluto`. `NotANumber` is what the source builds when
    the longitude is `undefined`: every field is `undefined` or `NaN`.
  */
  datatype Placement =
    | Placement(sign: string, signIndex: int, degrees: int, minutes: int, seconds: int, absolute: real)
    | NotANumber

  /** The longitude a placement writes out: sign start plus degrees, minutes and seconds. */
  function Written(p: Placement): real
    requires p.Placement?
  {
    30.0 * p.signIndex as real + p.degrees as real + p.minutes as real / 60.0 + p.seconds as real / 3600.0
  }

  /** `getZodiacSign` for a defined longitude. */
  function GetZodiacSign(deg: real): (p: Placement)
    ensures p.Placement?
    ensures 0.0 <= p.absolute < 360.0 && IsWholeTurns(deg - p.absolute)
    ensures 0 <= p.signIndex < 12 && p.sign == Signs[p.signIndex]
    ensures 30.0 * p.signIndex as real <= p.absolute < 30.0 * p.signIndex as real + 30.0
    ensures 0 <= p.degrees < 30 && 0 <= p.minutes < 60 && 0 <= p.seconds <= 60
    ensures p.degrees as real + p.minutes as real / 60.0
            <= p.absolute - 30.0 * p.signIndex as real
            < p.degrees as real + (p.minutes + 1) as real / 60.0
    ensures p.absolute - 1.0 / 7200.0 < Written(p) <= p.absolute + 1.0 / 7200.0
  {
    var norm := NormalizeDegrees(deg);
    var index := (norm / 30.0).Floor;
    var degInSign := norm - index as real * 30.0;
    var d := degInSign.Floor;
    var m := ((degInSign - d as real) * 60.0).Floor;
    var exact := (degInSign - d as real) * 3600.0 - m as real * 60.0;
    var s := Round(exact);
    assert 0.0 <= exact < 60.0;
    assert norm == 30.0 * index as real + d as real + m as real / 60.0 + exact / 3600.0;
    Placement(Signs[index], index, d, m, s, norm)
  }

  /** `getZodiacSign(grau)` where `grau` may be `undefined`. */
  function SignOf(grau: Option<real>): (p: Placement)
    ensures p.NotANumber? <==> grau.None?
    ensures grau.Some? ==> p == GetZodiacSign(grau.value)
  {
    if grau.Some? then GetZodiacSign(grau.value) else NotANumber
  }

  /** The seconds are rounded without a carry: 59.5 seconds of arc print as 0 minutes 60 seconds. */
  lemma SecondsMayReachSixty()
    ensures GetZodiacSign(59.5 / 3600.0).minutes == 0
    ensures GetZodiacSign(59.5 / 3600.0).seconds == 60
  {
    assert NormalizeDegrees(59.5 / 3600.0) == 59.5 / 3600.0;
  }

  lemma FloorSplit(k: int, f: real)
    requires 0.0 <= f < 1.0
    ensures (k as real + f).Floor == k
  {
  }

  /** The fraction of a degree made of whole minutes and seconds splits back into them. */
  lemma MinutesSecondsSplit(min: int, sec: int)
    requires 0 <= min < 60 && 0 <= sec < 60
    ensures var frac := min as real / 60.0 + sec as real / 3600.0;
            0.0 <= frac < 1.0 &&
            (frac * 60.0).Floor == min &&
            Round(frac * 3600.0 - min as real * 60.0) == sec
  {
    var frac := min as real / 60.0 + sec as real / 3600.0;
    assert frac * 60.0 == min as real + sec as real / 60.0;
    FloorSplit(min, sec as real / 60.0);
    assert frac * 3600.0 - min as real * 60.0 == sec as real;
    FloorSplit(sec, 0.5);
  }

  /** A longitude below 360 built from whole degrees, minutes and seconds splits back into them. */
  lemma {:induction false} SplitWholeDms(deg: int, min: int, sec: int)
    requires 0 <= deg < 360 && 0 <= min < 60 && 0 <= sec < 60
    ensures var x := deg as real + min as real / 60.0 + sec as real / 3600.0;
            GetZodiacSign(x) == Placement(Signs[deg / 30], deg / 30, deg % 30, min, sec, x)
  {
    var frac := min as real / 60.0 + sec as real / 3600.0;
    var x := deg as real + frac;
    MinutesSecondsSplit(min, sec);
    var q, rm := deg / 30, deg % 30;
    var norm := NormalizeDegrees(x);
    assert norm == x;
    assert x / 30.0 == q as real + (rm as real + frac) / 30.0;
    FloorSplit(q, (rm as real + frac) / 30.0);
    var degInSign := norm - q as real * 30.0;
    assert degInSign == rm as real + frac;
    FloorSplit(rm, frac);
    assert degInSign - rm as real == frac;
  }

  /**
    `getZodiacSign` undoes `dmsToDec`: a Northern (or Eastern, or unlettered)
    angle of whole degrees, minutes and seconds below 360 degrees comes back
    as its sign, its degrees within the sign, and the same minutes and seconds.
  */
  lemma {:induction false} SignOfDms(deg: int, min: int, sec: int, dir: Option<string>)
    requires 0 <= deg < 360 && 0 <= min < 60 && 0 <= sec < 60 && !IsSouthOrWest(dir)
    ensures var x := DmsToDec(deg as real, Some(min as real), Some(sec as real), dir);
            GetZodiacSign(x) == Placement(Signs[deg / 30], deg / 30, deg % 30, min, sec, x)
  {
    assert DmsToDec(deg as real, Some(min as real), Some(sec as real), dir)
        == deg as real + min as real / 60.0 + sec as real / 3600.0;
    SplitWholeDms(deg, min, sec);
  }
}
