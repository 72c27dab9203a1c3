/**
  The cusp calculator: ARMC from sidereal time, the house-system code, the
  query handed to the house-computation library, detection of the shape of
  the library's answer, the twelve house entries, and the Ascendant and
  Midheaven. The library itself is a parameter: a function from the query to
  its raw result.
*/
module CuspCalculator {
  import opened Wrappers
  import opened AngleUtils

  /** `sideralTime`: hours, minutes, seconds. */
  datatype SiderealTime = SiderealTime(h: real, m: real, s: real)

  /** `latitude` / `longitude`: `{deg, min, sec, dir}`, the last three optional. */
  datatype Sexagesimal = Sexagesimal(deg: real, min: Option<real>, sec: Option<real>, dir: Option<string>)

  /** The request body. `longitude` is read and never used. */
  datatype Input = Input(
    sideralTime: SiderealTime,
    latitude: Sexagesimal,
    longitude: Option<Sexagesimal>,
    obliquity: real,
    houseSystem: Option<string>)

  /** The four arguments given to the house-computation library. */
  datatype Query = Query(armc: real, latitude: real, obliquity: real, system: string)

  /** The `data` object of an object-style library result; each key may be missing. */
  datatype HouseData = HouseData(
    houses: Option<seq<real>>,
    cusps: Option<seq<real>>,
    points: Option<seq<real>>,
    ascmc: Option<seq<real>>)

  /**
    What the library may return: nothing, an object (with or without a
    `data` member), or a flat array.
  */
  datatype RawResult =
    | Missing
    | Record(data: Option<HouseData>)
    | Flat(values: seq<real>)

  /** The two sequences read from a library result: cusps and the angle pair. */
  datatype Shape = Shape(cusps: Option<seq<real>>, ascmc: Option<seq<real>>)

  /** An entry of `casas`: house number, its longitude (possibly `undefined`) and its sign. */
  datatype House = House(casa: int, grau: Option<real>, signo: Placement)

  /** The returned object `{ascendente, mc, casas}`. */
  datatype Chart = Chart(ascendente: Placement, mc: Placement, casas: seq<House>)

  /** The error thrown when the library gave no cusp sequence. */
  datatype CalcError = EmptyResult(message: string)

  const EmptyResultMessage: string := "Não foi possível calcular as casas (retorno vazio do sweph)."

  /** Whole hours and minutes in range, seconds in [0, 60). */
  predicate WellFormedTime(t: SiderealTime)
  {
    t.h.Floor as real == t.h && t.m.Floor as real == t.m &&
    0.0 <= t.h < 24.0 && 0.0 <= t.m < 60.0 && 0.0 <= t.s < 60.0
  }

  /** ARMC: sidereal time in decimal hours times 15 degrees per hour. */
  function Armc(t: SiderealTime): (r: real)
    ensures WellFormedTime(t) ==> 0.0 <= r < 360.0
  {
    (t.h + t.m / 60.0 + t.s / 3600.0) * 15.0
  }

  /** Reads an ARMC in [0, 360) back as hours, minutes and seconds of sidereal time. */
  function TimeOf(armc: real): SiderealTime
  {
    var hours := armc / 15.0;
    var h := hours.Floor;
    var m := ((hours - h as real) * 60.0).Floor;
    SiderealTime(h as real, m as real, (hours - h as real) * 3600.0 - m as real * 60.0)
  }

  /** ARMC loses nothing: a well-formed sidereal time is recovered from it. */
  lemma {:induction false} ArmcRoundTrip(t: SiderealTime)
    requires WellFormedTime(t)
    ensures TimeOf(Armc(t)) == t
  {
    var h, m := t.h.Floor, t.m.Floor;
    var hours := Armc(t) / 15.0;
    assert hours == h as real + (t.m + t.s / 60.0) / 60.0;
    FloorSplit(h, (t.m + t.s / 60.0) / 60.0);
    assert (hours - h as real) * 60.0 == m as real + t.s / 60.0;
    FloorSplit(m, t.s / 60.0);
    assert (hours - h as real) * 3600.0 - m as real * 60.0 == t.s;
  }

  /** Sidereal 0:00:00 is ARMC 0, 12:00:00 is 180, and 18:57:16 is 284 19/60 degrees. */
  lemma ArmcExamples()
    ensures Armc(SiderealTime(0.0, 0.0, 0.0)) == 0.0
    ensures Armc(SiderealTime(12.0, 0.0, 0.0)) == 180.0
    ensures Armc(SiderealTime(18.0, 57.0, 16.0)) == 17059.0 / 60.0
  {
    assert Armc(SiderealTime(18.0, 57.0, 16.0)) == (18.0 + 57.0 / 60.0 + 16.0 / 3600.0) * 15.0;
  }

  /** `houseSystem || 'P'`: the caller's code unless it is absent or empty. */
  function HouseSystemCode(houseSystem: Option<string>): (c: string)
    ensures c != ""
    ensures houseSystem.None? || houseSystem == Some("") ==> c == "P"
    ensures houseSystem.Some? && houseSystem.value != "" ==> c == houseSystem.value
  {
    if houseSystem.Some? && houseSystem.value != "" then houseSystem.value else "P"
  }

  /** The library arguments `(armc, latDec, obliquity, hSys)`. */
  function QueryOf(input: Input): (q: Query)
    ensures WellFormedTime(input.sideralTime) ==> 0.0 <= q.armc < 360.0
    ensures q.system != ""
  {
    var lat := input.latitude;
    Query(Armc(input.sideralTime), DmsToDec(lat.deg, lat.min, lat.sec, lat.dir),
          input.obliquity, HouseSystemCode(input.houseSystem))
  }

  /** `a || b` on values that are arrays or `undefined`: any array is truthy, even an empty one. */
  function OrElse(a: Option<seq<real>>, b: Option<seq<real>>): Option<seq<real>>
  {
    if a.Some? then a else b
  }

  /** There is a cusp sequence somewhere in the result. */
  predicate HasCuspData(raw: RawResult)
  {
    match raw
    case Missing => false
    case Flat(_) => true
    case Record(data) => data.Some? && (data.value.houses.Some? || data.value.cusps.Some?)
  }

  /** Shape detection: `data.houses` before `data.cusps`, `data.points` before `data.ascmc`, or the flat array. */
  function DetectShape(raw: RawResult): (s: Shape)
    ensures s.cusps.Some? <==> HasCuspData(raw)
    ensures raw.Flat? ==> s == Shape(Some(raw.values), None)
    ensures raw.Missing? || (raw.Record? && raw.data.None?) ==> s == Shape(None, None)
    ensures raw.Record? && raw.data.Some? ==>
              var d := raw.data.value;
              (d.houses.Some? ==> s.cusps == d.houses) && (d.houses.None? ==> s.cusps == d.cusps) &&
              (d.points.Some? ==> s.ascmc == d.points) && (d.points.None? ==> s.ascmc == d.ascmc)
  {
    match raw
    case Record(data) =>
      if data.Some? then Shape(OrElse(data.value.houses, data.value.cusps), OrElse(data.value.points, data.value.ascmc))
      else Shape(None, None)
    case Flat(values) => Shape(Some(values), None)
    case Missing => Shape(None, None)
  }

  /** `cusps[k]`, `undefined` past the end. */
  function At(cusps: seq<real>, k: nat): Option<real>
  {
    if k < |cusps| then Some(cusps[k]) else None
  }

  /** `cusps[i] !== undefined ? cusps[i] : cusps[i-1]` for house `i`. */
  function HouseLongitude(cusps: seq<real>, i: int): (g: Option<real>)
    requires 1 <= i <= 12
    ensures i < |cusps| ==> g == Some(cusps[i])
    ensures i == |cusps| ==> g == Some(cusps[i - 1])
    ensures i > |cusps| ==> g.None?
  {
    if At(cusps, i).Some? then At(cusps, i) else At(cusps, i - 1)
  }

  /** The twelve entries the house loop produces, as a sequence. */
  function HousesOf(cusps: seq<real>): (casas: seq<House>)
    ensures |casas| == 12
    ensures forall k :: 0 <= k < 12 ==>
              casas[k].casa == k + 1 &&
              casas[k].grau == HouseLongitude(cusps, k + 1) &&
              casas[k].signo == SignOf(casas[k].grau)
  {
    seq(12, k requires 0 <= k < 12 => House(k + 1, HouseLongitude(cusps, k + 1), SignOf(HouseLongitude(cusps, k + 1))))
  }

  /** Ascendant and MC longitudes: the explicit pair when it has two values, else houses 1 and 10. */
  function Angles(ascmc: Option<seq<real>>, casas: seq<House>): (a: (Option<real>, Option<real>))
    requires |casas| == 12
    ensures ascmc.Some? && |ascmc.value| >= 2 ==> a == (Some(ascmc.value[0]), Some(ascmc.value[1]))
    ensures !(ascmc.Some? && |ascmc.value| >= 2) ==> a == (casas[0].grau, casas[9].grau)
  {
    if ascmc.Some? && |ascmc.value| >= 2 then (Some(ascmc.value[0]), Some(ascmc.value[1]))
    else (casas[0].grau, casas[9].grau)
  }

  /** What `calculateCusps` returns or throws once the library has answered `raw`. */
  function ChartOf(raw: RawResult): (r: Result<Chart, CalcError>)
    ensures r.Failure? <==> !HasCuspData(raw)
    ensures r.Failure? ==> r.error == EmptyResult(EmptyResultMessage)
    ensures r.Success? ==>
              var cusps := DetectShape(raw).cusps.value;
              var c := r.value;
              |c.casas| == 12 &&
              (forall k :: 0 <= k < 12 ==>
                 c.casas[k].casa == k + 1 &&
                 c.casas[k].grau == HouseLongitude(cusps, k + 1) &&
                 c.casas[k].signo == SignOf(c.casas[k].grau))
    ensures r.Success? ==>
              var ascmc := DetectShape(raw).ascmc;
              var c := r.value;
              if ascmc.Some? && |ascmc.value| >= 2
              then c.ascendente == GetZodiacSign(ascmc.value[0]) && c.mc == GetZodiacSign(ascmc.value[1])
              else c.ascendente == SignOf(c.casas[0].grau) && c.mc == SignOf(c.casas[9].grau)
  {
    var shape := DetectShape(raw);
    if shape.cusps.None? then Failure(EmptyResult(EmptyResultMessage))
    else
      var casas := HousesOf(shape.cusps.value);
      var (asc, mc) := Angles(shape.ascmc, casas);
      Success(Chart(SignOf(asc), SignOf(mc), casas))
  }

  /** The house loop: `casasFinais` grows by one entry per house, 1 to 12. */
  method BuildHouses(cusps: seq<real>) returns (casas: seq<House>)
    ensures casas == HousesOf(cusps)
  {
    casas := [];
    var i := 1;
    while i <= 12
      invariant 1 <= i <= 13
      invariant casas == HousesOf(cusps)[..i - 1]
    {
      var grau := if At(cusps, i).Some? then At(cusps, i) else At(cusps, i - 1);
      casas := casas + [House(i, grau, SignOf(grau))];
      i := i + 1;
    }
  }

  /**
    `calculateCusps(inputData)`, with the library entry point in use as
    `houses`. The library is asked once, with the ARMC, the decimal latitude,
    the obliquity and the house-system code.
  */
  method CalculateCusps(input: Input, houses: Query -> RawResult) returns (r: Result<Chart, CalcError>)
    ensures r == ChartOf(houses(QueryOf(input)))
  {
    var armc := Armc(input.sideralTime);
    var lat := input.latitude;
    var latDec := DmsToDec(lat.deg, lat.min, lat.sec, lat.dir);
    var hSys := HouseSystemCode(input.houseSystem);
    var houseResult := houses(Query(armc, latDec, input.obliquity, hSys));

    var cusps: Option<seq<real>> := None;
    var ascmc: Option<seq<real>> := None;
    if houseResult.Record? && houseResult.data.Some? {
      var data := houseResult.data.value;
      cusps := OrElse(data.houses, data.cusps);
      ascmc := OrElse(data.points, data.ascmc);
    } else if houseResult.Flat? {
      cusps := Some(houseResult.values);
    }

    if cusps.None? {
      return Failure(EmptyResult(EmptyResultMessage));
    }

    var casas := BuildHouses(cusps.value);
    assert Shape(cusps, ascmc) == DetectShape(houseResult);

    var asc: Option<real>;
    var mc: Option<real>;
    if ascmc.Some? && |ascmc.value| >= 2 {
      asc := Some(ascmc.value[0]);
      mc := Some(ascmc.value[1]);
    } else {
      asc := casas[0].grau;
      mc := casas[9].grau;
    }

    return Success(Chart(SignOf(asc), SignOf(mc), casas));
  }

  /** A flat array `[placeholder, c1, ..., c12]` yields houses 1 to 12 with `c1` to `c12`, in order. */
  lemma {:induction false} ThirteenDropsPlaceholder(values: seq<real>)
    requires |values| == 13
    ensures ChartOf(Flat(values)).Success?
    ensures var c := ChartOf(Flat(values)).value;
            (forall k :: 0 <= k < 12 ==> c.casas[k].grau == Some(values[k + 1])) &&
            c.ascendente == GetZodiacSign(values[1]) && c.mc == GetZodiacSign(values[10])
  {
  }

  /**
    A 12-value cusp sequence is read from index 1: houses 1 to 11 take
    `cusps[1..11]`, house 12 repeats `cusps[11]`, and `cusps[0]` is dropped.
  */
  lemma {:induction false} TwelveShiftsByOne(values: seq<real>)
    requires |values| == 12
    ensures ChartOf(Flat(values)).Success?
    ensures var c := ChartOf(Flat(values)).value;
            (forall k :: 0 <= k < 11 ==> c.casas[k].grau == Some(values[k + 1])) &&
            c.casas[11].grau == Some(values[11])
  {
  }

  /** The same shift when the twelve values arrive as `data.houses` of an object result. */
  lemma {:induction false} TwelveHousesShiftByOne(values: seq<real>, points: Option<seq<real>>)
    requires |values| == 12
    ensures ChartOf(Record(Some(HouseData(Some(values), None, points, None)))).Success?
    ensures var c := ChartOf(Record(Some(HouseData(Some(values), None, points, None)))).value;
            (forall k :: 0 <= k < 11 ==> c.casas[k].grau == Some(values[k + 1])) &&
            c.casas[11].grau == Some(values[11])
  {
  }

  /** An empty array is not rejected: all twelve houses and both angles are `undefined`. */
  lemma EmptyArrayNotRejected()
    ensures ChartOf(Flat([])).Success?
    ensures var c := ChartOf(Flat([])).value;
            c.ascendente == NotANumber && c.mc == NotANumber &&
            forall k :: 0 <= k < 12 ==> c.casas[k].grau.None? && c.casas[k].signo == NotANumber
  {
  }

  /** House 1's sign is the table entry of the 30-degree sector holding cusp 1. */
  lemma {:induction false} FirstHouseSign(values: seq<real>)
    requires |values| >= 2
    ensures ChartOf(Flat(values)).Success?
    ensures ChartOf(Flat(values)).value.casas[0].signo.sign == Signs[(NormalizeDegrees(values[1]) / 30.0).Floor]
  {
    var norm := NormalizeDegrees(values[1]);
    var p := GetZodiacSign(values[1]);
    assert p.absolute == norm;
    FloorSplit(p.signIndex, (norm - 30.0 * p.signIndex as real) / 30.0);
    assert norm / 30.0 == p.signIndex as real + (norm - 30.0 * p.signIndex as real) / 30.0;
  }

  /** The longitude field has no effect on the result. */
  lemma LongitudeUnused(input: Input, other: Option<Sexagesimal>)
    ensures QueryOf(input) == QueryOf(input.(longitude := other))
  {
  }
}
