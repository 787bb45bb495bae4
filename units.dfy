/**
 * The closed enumeration of unit systems and its two constant lookup tables:
 * the unit label of each measured quantity, and the name shown to the user.
 */
module Units {
  import opened Wrappers

  datatype UnitSystem = Metric | Imperial | Standard

  /** The label of each measured quantity under one unit system. */
  datatype UnitLabels = UnitLabels(
    temperature: string,
    windSpeed: string,
    pressure: string,
    visibility: string,
    precipitation: string)

  /** The string tag of a unit system, as stored and compared in the source. */
  function Tag(u: UnitSystem): string {
    match u
    case Metric => "metric"
    case Imperial => "imperial"
    case Standard => "standard"
  }

  /** Reading back a tag gives its system. */
  lemma TagRoundTrip(u: UnitSystem)
    ensures FromTag(Tag(u)) == Some(u)
  {
  }

  /** The inverse of `Tag`: `None` for any string that is not one of the three tags. */
  function FromTag(s: string): (r: Option<UnitSystem>)
    ensures forall u :: r == Some(u) <==> s == Tag(u)
  {
    if s == "metric" then Some(Metric)
    else if s == "imperial" then Some(Imperial)
    else if s == "standard" then Some(Standard)
    else None
  }

  /** The system whose wind-speed label is `s`, if any. */
  function SystemOfWindLabel(s: string): Option<UnitSystem> {
    if s == "km/h" then Some(Metric)
    else if s == "mph" then Some(Imperial)
    else if s == "m/s" then Some(Standard)
    else None
  }

  /** The system whose temperature label is `s`, if any. */
  function SystemOfTemperatureLabel(s: string): Option<UnitSystem> {
    if s == "°C" then Some(Metric)
    else if s == "°F" then Some(Imperial)
    else if s == "K" then Some(Standard)
    else None
  }

  /**
   * The label table. Pressure is "hPa" under every system; visibility and
   * precipitation use "mi" and "in" under imperial alone and "km" and "mm"
   * otherwise; both the temperature and the wind-speed label identify the
   * system they belong to.
   */
  function Labels(u: UnitSystem): (l: UnitLabels)
    ensures l.pressure == "hPa"
    ensures l.visibility == (if u == Imperial then "mi" else "km")
    ensures l.precipitation == (if u == Imperial then "in" else "mm")
    ensures SystemOfTemperatureLabel(l.temperature) == Some(u)
    ensures SystemOfWindLabel(l.windSpeed) == Some(u)
  {
    match u
    case Metric => UnitLabels("°C", "km/h", "hPa", "km", "mm")
    case Imperial => UnitLabels("°F", "mph", "hPa", "mi", "in")
    case Standard => UnitLabels("K", "m/s", "hPa", "km", "mm")
  }

  /** The name shown for each system. */
  function DisplayName(u: UnitSystem): string {
    match u
    case Metric => "Metric"
    case Imperial => "Imperial"
    case Standard => "Scientific"
  }

  /** Distinct systems have distinct temperature, wind-speed and display labels. */
  lemma LabelsDistinct(u: UnitSystem, v: UnitSystem)
    requires u != v
    ensures Labels(u).temperature != Labels(v).temperature
    ensures Labels(u).windSpeed != Labels(v).windSpeed
    ensures DisplayName(u) != DisplayName(v)
  {
    assert SystemOfTemperatureLabel(Labels(u).temperature) != SystemOfTemperatureLabel(Labels(v).temperature);
    assert SystemOfWindLabel(Labels(u).windSpeed) != SystemOfWindLabel(Labels(v).windSpeed);
  }

  /** The concrete labels of each system, and the scientific name of `standard`. */
  lemma LabelValues()
    ensures Labels(Metric).temperature == "°C" && Labels(Metric).windSpeed == "km/h"
    ensures Labels(Imperial).temperature == "°F" && Labels(Imperial).windSpeed == "mph"
    ensures Labels(Standard).temperature == "K" && Labels(Standard).windSpeed == "m/s"
    ensures DisplayName(Standard) == "Scientific"
  {
  }
}
