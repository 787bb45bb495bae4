/**
 * The display formatters and the compass mapping of the weather service
 * module. None of the formatters takes a unit system: temperatures are shown
 * in degrees Celsius, wind speeds in km/h and visibility in km, whatever the
 * caller's selection.
 */
module WeatherApi {
  import opened Wrappers
  import opened NumberText

  predicate EndsWith(s: string, suffix: string) {
    |suffix| <= |s| && s[|s| - |suffix|..] == suffix
  }

  /** `formatTemperature`: the nearest integer (halves up), then "°C". */
  function FormatTemperature(temp: real): (s: string)
    ensures EndsWith(s, "°C")
    ensures CanonicalInt(s[..|s| - 2])
    ensures ParseInt(s[..|s| - 2]).Some?
    ensures temp - 0.5 < ParseInt(s[..|s| - 2]).value as real <= temp + 0.5
  {
    var s := IntToString(Round(temp)) + "°C";
    ParseIntToString(Round(temp));
    assert s[..|s| - 2] == IntToString(Round(temp));
    s
  }

  /** `formatWindSpeed`: metres per second times 3.6, rounded, then " km/h". */
  function FormatWindSpeed(speed: real): (s: string)
    ensures EndsWith(s, " km/h")
    ensures CanonicalInt(s[..|s| - 5])
    ensures ParseInt(s[..|s| - 5]).Some?
    ensures speed * 3.6 - 0.5 < ParseInt(s[..|s| - 5]).value as real <= speed * 3.6 + 0.5
  {
    var s := IntToString(Round(speed * 3.6)) + " km/h";
    ParseIntToString(Round(speed * 3.6));
    assert s[..|s| - 5] == IntToString(Round(speed * 3.6));
    s
  }

  /** `formatPressure`: the value unchanged, then " hPa". */
  function FormatPressure(pressure: int): (s: string)
    ensures EndsWith(s, " hPa")
    ensures CanonicalInt(s[..|s| - 4])
    ensures ParseInt(s[..|s| - 4]) == Some(pressure)
  {
    var s := IntToString(pressure) + " hPa";
    ParseIntToString(pressure);
    assert s[..|s| - 4] == IntToString(pressure);
    s
  }

  /** `formatVisibility`: metres over 1000 with one decimal, then " km". */
  function FormatVisibility(visibility: real): (s: string)
    ensures EndsWith(s, " km")
    ensures ParseTenths(s[..|s| - 3]).Some?
    ensures visibility >= 0.0 ==>
      visibility / 1000.0 - 0.05 < ParseTenths(s[..|s| - 3]).value as real / 10.0 <= visibility / 1000.0 + 0.05
    ensures visibility < 0.0 ==>
      visibility / 1000.0 - 0.05 <= ParseTenths(s[..|s| - 3]).value as real / 10.0 < visibility / 1000.0 + 0.05
  {
    var s := ToFixed1(visibility / 1000.0) + " km";
    assert s[..|s| - 3] == ToFixed1(visibility / 1000.0);
    s
  }

  lemma TemperatureExamples()
    ensures FormatTemperature(20.4) == "20°C"
    ensures FormatTemperature(20.6) == "21°C"
    ensures FormatTemperature(-0.5) == "0°C"
    ensures FormatTemperature(-1.5) == "-1°C"
  {
    assert Round(20.4) == 20 && Round(20.6) == 21;
    assert Round(-0.5) == 0 && Round(-1.5) == -1;
    assert NatToString(20) == "20" && NatToString(21) == "21";
  }

  lemma WindSpeedExample()
    ensures FormatWindSpeed(10.0) == "36 km/h"
  {
    assert Round(10.0 * 3.6) == 36;
    assert NatToString(36) == "36";
  }

  lemma PressureExample()
    ensures FormatPressure(1013) == "1013 hPa"
  {
    assert NatToString(1013) == "1013";
  }

  lemma VisibilityExamples()
    ensures FormatVisibility(10000.0) == "10.0 km"
    ensures FormatVisibility(8050.0) == "8.1 km"
  {
    assert Round(10000.0 / 1000.0 * 10.0) == 100;
    assert NatToString(10) == "10";
    assert Round(8050.0 / 1000.0 * 10.0) == 81;
  }

  /** The 16 compass points, clockwise from north. */
  const Compass: seq<string> :=
    ["N", "NNE", "NE", "ENE", "E", "ESE", "SE", "SSE",
     "S", "SSW", "SW", "WSW", "W", "WNW", "NW", "NNW"]

  /** The table has the 16 points, with the four cardinal points every fourth entry. */
  lemma CompassPoints()
    ensures |Compass| == 16
    ensures Compass[0] == "N" && Compass[4] == "E" && Compass[8] == "S" && Compass[12] == "W"
  {
  }

  /** JavaScript's `n % 16`: the remainder takes the sign of the dividend. */
  function JsRemainder16(n: int): (r: int)
    ensures 0 <= n ==> 0 <= r < 16
    ensures n < 0 ==> -16 < r <= 0
    ensures (n - r) % 16 == 0
  {
    if n >= 0 then n % 16 else -((-n) % 16)
  }

  /**
   * `getWindDirection`: `directions[Math.round(degrees / 22.5) % 16]`. A
   * negative remainder reads a missing array element (`undefined`, here
   * `None`); a zero remainder reads "N" even when it is JavaScript's -0.
   */
  function WindDirection(degrees: real): Option<string> {
    var index := JsRemainder16(Round(degrees / 22.5));
    if index >= 0 then Some(Compass[index]) else None
  }

  /**
   * A bearing reads a compass point exactly when its rounded sector number is
   * non-negative or a multiple of 16, which every bearing from -11.25 up
   * satisfies; the point read is one of the 16.
   */
  lemma WindDirectionDefined(degrees: real)
    ensures var n := Round(degrees / 22.5);
      WindDirection(degrees).Some? <==> n >= 0 || n % 16 == 0
    ensures degrees >= -11.25 ==> WindDirection(degrees).Some?
    ensures WindDirection(degrees).Some? ==> WindDirection(degrees).value in Compass
  {
  }

  /**
   * Compass point `k` covers the bearings from `(k - 0.5) * 22.5` up to, but
   * not including, `(k + 0.5) * 22.5`; the upper boundary rounds into the next
   * point, and point 16 is north again.
   */
  lemma WindDirectionSector(degrees: real, k: nat)
    requires (k as real - 0.5) * 22.5 <= degrees < (k as real + 0.5) * 22.5
    ensures WindDirection(degrees) == Some(Compass[k % 16])
  {
    assert Round(degrees / 22.5) == k;
  }

  /** A full turn does not change the compass point of a non-negative bearing. */
  lemma WindDirectionPeriodic(degrees: real)
    requires degrees >= 0.0
    ensures WindDirection(degrees + 360.0) == WindDirection(degrees)
  {
    var n := Round(degrees / 22.5);
    assert Round((degrees + 360.0) / 22.5) == n + 16;
    assert (n + 16) % 16 == n % 16;
  }

  /** North covers both sides of zero and the full turn. */
  lemma WindDirectionNorthExamples()
    ensures WindDirection(0.0) == Some("N")
    ensures WindDirection(360.0) == Some("N")
    ensures WindDirection(348.75) == Some("N")
  {
    WindDirectionSector(0.0, 0);
    WindDirectionSector(360.0, 16);
    WindDirectionSector(348.75, 16);
  }

  /** A sector boundary belongs to the point clockwise of it. */
  lemma WindDirectionPointExamples()
    ensures WindDirection(202.5) == Some("SSW")
    ensures WindDirection(11.25) == Some("NNE")
  {
    WindDirectionSector(202.5, 9);
    WindDirectionSector(11.25, 1);
  }

  /**
   * A negative bearing reads a point only when its remainder is zero: -360
   * gives -16 % 16, which is -0 and reads "N"; -22.5 gives -1, which reads
   * nothing.
   */
  lemma WindDirectionNegativeExamples()
    ensures WindDirection(-360.0) == Some("N")
    ensures WindDirection(-22.5) == None
  {
    assert Round(-360.0 / 22.5) == -16;
    assert Round(-22.5 / 22.5) == -1;
  }
}
