# motor-houses: cusp calculator model

A Dafny model of `calculateCusps.js` in the motor-houses service. The service
turns a local sidereal time and a geographic latitude into astrological house
cusps. It computes the right ascension of the midheaven (ARMC) from the
sidereal time and converts the latitude from degrees/minutes/seconds to
decimal degrees. It then asks the Swiss Ephemeris binding for the house cusps,
reshapes whatever shape that library returns into exactly twelve houses plus an
Ascendant and a Midheaven, and maps every longitude to a zodiac sign with
degrees, minutes and seconds.

Files:

- `wrappers.dfy` (module `Wrappers`): `Option` for JavaScript values that may be
  `undefined`, and `Result` for a call that may throw.
- `angles.dfy` (module `AngleUtils`): `dmsToDec`, and JavaScript's `%` as a
  remainder truncated toward zero. It also holds the `((deg % 360) + 360) % 360`
  normalisation, `Math.round`, and `getZodiacSign` with its table of twelve sign
  names.
- `cusps.dfy` (module `CuspCalculator`): the body of `calculateCusps`. It covers
  ARMC, the house-system code, the query given to the library, shape detection,
  the twelve-house loop, the choice of Ascendant and MC, and the thrown error.
  `ChartOf` states the result as a function. `CalculateCusps` is the
  imperative method, with the source's reassignments. Its house loop is the
  method `BuildHouses`. `CalculateCusps` is proved equal to `ChartOf` applied to what the library returns.

Numbers are exact reals: `Math.floor` is `.Floor` and `Math.round(x)` is
`(x + 0.5).Floor`. The library call is a function parameter
`houses: Query -> RawResult`. `RawResult` is the union of the shapes the code
checks: nothing, an object with or without `data` (whose `houses`, `cusps`,
`points` and `ascmc` may each be missing), or a flat array. An index past the
end of the cusp array is `undefined`. Such a longitude is `None`, and its sign
is `Placement.NotANumber`, because `getZodiacSign(undefined)` returns `NaN`
fields rather than throwing.

In these places the code does something a reader might not expect; the model
follows the code:

- A 12-value cusp array is not taken as already numbered 1 to 12. House `i`
  reads `cusps[i]`, so `cusps[0]` is dropped and house 12 repeats `cusps[11]`
  (`TwelveShiftsByOne` for a flat array, `TwelveHousesShiftByOne` for `data.houses`).
- Rounding the seconds does not carry: 59.5 seconds of arc becomes 0 minutes
  and 60 seconds (`SecondsMayReachSixty`).
- The code does no validation: an absent `sideralTime` or `latitude` makes
  lines 49/51 throw a TypeError, which the model rules out by making both
  fields of `Input` required.
- No error is raised for fewer than twelve cusps. Even an empty array gives a
  chart whose longitudes are all `undefined` (`EmptyArrayNotRejected`).
- The house-system code is passed on whole, not cut to its first character.
- Sidereal time 18:57:16 gives ARMC 284 19/60 = 284.31666… degrees
  (`ArmcExamples`).

## Model

| member | source | states |
|---|---|---|
| `AngleUtils.DmsToDec` | calculateCusps.js:14-18 | the result is plus or minus `abs(deg) + min/60 + sec/3600`. It is negated exactly for `'S'` or `'W'` (when the magnitude is non-zero). With non-negative minutes and seconds it is non-negative for any other or absent letter. |
| `AngleUtils.MissingPartsAreZero` | calculateCusps.js:15 | an absent minute or second gives the same result as 0, and both absent gives `±abs(deg)` |
| `AngleUtils.DmsToDecExample` | calculateCusps.js:14-17 | 23°33'9" S is exactly -23.5525; with N or no letter it is +23.5525; W negates even a negative `deg` |
| `AngleUtils.Rem360` | calculateCusps.js:21 | JavaScript's `a % 360` keeps the sign of `a`, has magnitude below 360, and differs from `a` by whole turns |
| `AngleUtils.NormalizeDegrees` | calculateCusps.js:21 | the double remainder lies in [0,360), is congruent to the input mod 360, and leaves an angle already in [0,360) unchanged |
| `AngleUtils.NormalizeIsFloorMod` | calculateCusps.js:21 | the double remainder equals `x - 360·floor(x/360)` |
| `AngleUtils.NormalizeIdempotent` | calculateCusps.js:21 | normalising twice is normalising once |
| `AngleUtils.Round` | calculateCusps.js:30 | `Math.round` is within one half of its argument, halves going up |
| `AngleUtils.GetZodiacSign` | calculateCusps.js:20-37 | `grau_absoluto` is in [0,360) and congruent to the input. The sign index is in 0..11, and `sign` is that index's table entry. The index is the 30° sector holding the angle. Degrees are in 0..29 and minutes in 0..59, and they bracket the angle within its sign. Seconds are in 0..60. The written sign/degrees/minutes/seconds lie within half a second of arc of the angle, and an exact half second rounds up, so the seconds are exactly `Math.round` of the remaining arc. |
| `AngleUtils.SignOf` | calculateCusps.js:82 | `getZodiacSign` of an `undefined` longitude is the NaN placement; of a defined one it is `GetZodiacSign` |
| `AngleUtils.SecondsMayReachSixty` | calculateCusps.js:29-30 | 59.5 seconds of arc comes out as 0 minutes and 60 seconds: there is no carry |
| `AngleUtils.SplitWholeDms` | calculateCusps.js:26-30 | an angle built from whole degrees below 360, minutes and seconds splits back into sign `deg/30`, degrees `deg%30`, and the same minutes and seconds |
| `AngleUtils.SignOfDms` | calculateCusps.js:14-37 | `getZodiacSign` undoes `dmsToDec` for such an angle when the letter is not S or W |
| `CuspCalculator.Armc` | calculateCusps.js:49-50 | for whole hours in 0..23, whole minutes in 0..59 and seconds in [0,60), ARMC lies in [0,360) |
| `CuspCalculator.ArmcRoundTrip` | calculateCusps.js:49-50 | splitting ARMC/15 into hours, minutes and seconds gives back the well-formed sidereal time it came from |
| `CuspCalculator.ArmcExamples` | calculateCusps.js:49-50 | 0:00:00 gives 0, 12:00:00 gives 180, 18:57:16 gives 17059/60 |
| `CuspCalculator.HouseSystemCode` | calculateCusps.js:52 | the caller's code is used when present and non-empty, else `'P'`; the code is never empty |
| `CuspCalculator.QueryOf` | calculateCusps.js:47-57 | the ARMC sent to the library is in [0,360) for a well-formed time, and a non-empty house-system code is always sent |
| `CuspCalculator.DetectShape` | calculateCusps.js:62-70 | a cusp sequence is found exactly when the result has one. For an object with `data`, `houses` is taken before `cusps` and `points` before `ascmc`. A flat array is the cusps, with no angle pair. Any other result has neither. |
| `CuspCalculator.HouseLongitude` | calculateCusps.js:78 | house `i` reads `cusps[i]` when it exists. It reads `cusps[i-1]` when `i` is the length. It is `undefined` past that. |
| `CuspCalculator.HousesOf` | calculateCusps.js:76-84 | exactly 12 entries, numbered 1..12 in order, each with the longitude of `HouseLongitude` and the sign of that longitude |
| `CuspCalculator.Angles` | calculateCusps.js:86-95 | with an angle pair of length at least 2 the Ascendant and MC are its first two values; otherwise they are the longitudes of houses 1 and 10 |
| `CuspCalculator.ChartOf` | calculateCusps.js:62-101 | it throws exactly when no cusp sequence was found, with the source's message. Otherwise there are 12 numbered houses, each longitude taken by the fallback rule and carrying its sign. Ascendant and MC are the signs of the explicit pair, or else of houses 1 and 10. |
| `CuspCalculator.BuildHouses` | calculateCusps.js:76-84 | the `for` loop that pushes one entry per house builds exactly `HousesOf(cusps)`: twelve entries, numbered 1..12 |
| `CuspCalculator.CalculateCusps` | calculateCusps.js:43-101 | the imperative body, with its reassignments of `cusps`, `ascmc`, `asc` and `mc`, returns `ChartOf` of what the library answers to `(armc, latDec, obliquity, hSys)` |
| `CuspCalculator.ThirteenDropsPlaceholder` | calculateCusps.js:76-95 | a 13-value flat array gives houses 1..12 equal to `values[1..12]` in order, and Ascendant and MC from `values[1]` and `values[10]` |
| `CuspCalculator.TwelveShiftsByOne` | calculateCusps.js:77-79 | a 12-value array gives houses 1..11 equal to `values[1..11]` and house 12 equal to `values[11]` |
| `CuspCalculator.TwelveHousesShiftByOne` | calculateCusps.js:65-79 | a 12-value `data.houses` in an object result gives the same shift: houses 1..11 equal `values[1..11]` and house 12 equals `values[11]` |
| `CuspCalculator.EmptyArrayNotRejected` | calculateCusps.js:72-95 | an empty array does not throw: all twelve longitudes and both angles are undefined (NaN placements) |
| `CuspCalculator.FirstHouseSign` | calculateCusps.js:26-33 | for any flat array of at least two values, house 1's sign name is the table entry at `floor(norm(cusps[1])/30)`, where `norm` reduces into [0,360) |
| `CuspCalculator.LongitudeUnused` | calculateCusps.js:47 | changing `longitude` does not change what is sent to the library |

## Left out

- Loading the `sweph` package and logging its failure (calculateCusps.js:3-12). This is module loading.
- The spherical astronomy of the library (calculateCusps.js:56-60). It is the parameter `houses`. Which of `houses_armc` and `houses` is used is the library's concern, and both receive the same four arguments.
- index.js: HTTP routing, JSON parsing, the 400/500 responses, logging and `listen`. These are transport.
- IEEE-754 double rounding. The model uses exact reals.
- The text of `formatted` (calculateCusps.js:34). It only concatenates the sign name, degrees, minutes and seconds, which `Placement` carries as fields.
- Absent or non-numeric request fields other than the optional `min`, `sec`, `dir`, `longitude` and `houseSystem`. The code does no validation: an absent `sideralTime` or `latitude` makes lines 49/51 throw a TypeError, which the model rules out by making both fields of `Input` required. An absent `h`, `m` or `s` inside `sideralTime` gives `NaN` arithmetic, and an absent `obliquity` is passed to the library as `undefined`; the model's input types require numbers there. Values of the wrong type are not modelled: a string `min` or `sec` such as `"33"` is coerced to a number by `/` at line 15, which `Option<real>` cannot express, and a non-string `dir` or `houseSystem` is not represented either.
- JavaScript truthiness of values that are neither arrays nor absent: `null` is `None`, and `0`, `false`, strings or non-array objects in the `data` keys are not modelled. Non-numeric elements inside the cusp and angle arrays are not modelled either.
