/**
 * The numeric part of the widget's `run()`: the trend from the stats, the
 * corrected concentration, its AQI and the AQI's category. Rendering is not
 * modelled; the category's colours and label are what it would draw.
 */
module Widget {
  import opened Wrappers
  import opened JsValues
  import opened JsParseInt
  import opened PmCorrection
  import opened AqiConversion
  import opened AqiLevel
  import opened AqiTrend

  /** The parsed `Stats` field: the live value and a longer-window average. */
  datatype Stats = Stats(v1: Num, v3: Num)

  /** What the widget shows for one reading. */
  datatype Classified = Classified(trend: string, pm: Num, aqi: Aqi, level: Level)

  /**
   * The figures shown are those of the inputs: the trend of the stats, the
   * corrected concentration of the sensor fields, its AQI, and that AQI
   * coerced to a number as the category's level, with the table entry,
   * threshold and colours included, that `calculateLevel` picks for it.
   */
  function Classify(data: SensorData, stats: Stats): (r: Result<Classified, JsError>)
    ensures r.Ok? ==> r.value.pm == ComputePM(data) && r.value.trend == GetAQITrend(stats.v1, stats.v3)
    ensures r.Ok? ==> r.value.aqi == AqiFromPM(r.value.pm) && r.value.level.level == Coerce(r.value.aqi)
    ensures r.Ok? ==> CalculateLevel(r.value.aqi) == Ok(r.value.level)
    ensures r.Err? ==> CalculateLevel(AqiFromPM(ComputePM(data))).Err?
  {
    var aqiTrend := GetAQITrend(stats.v1, stats.v3);
    var epaPM := ComputePM(data);
    var aqi := AqiFromPM(epaPM);
    match CalculateLevel(aqi)
    case Err(e) => Err(e)
    case Ok(level) => Ok(Classified(aqiTrend, epaPM, aqi, level))
  }

  /** Whatever the concentration, "-" or a number, the result is never below 0. */
  lemma AqiNotNegative(pm: Num)
    ensures Coerce(AqiFromPM(pm)) >= 0
  {
    if AtLeast(pm, 0.0) {
      AqiBandBounds(pm.v);
    }
  }

  /**
   * The category lookup cannot throw on anything `aqiFromPM` returns, and the
   * category shown is the AirNow category of the index.
   */
  lemma ClassifyNeverThrows(data: SensorData, stats: Stats)
    ensures Classify(data, stats).Ok?
    ensures var c := Classify(data, stats).value;
      c.level.level == Coerce(c.aqi) && c.level.attribute.name == EpaCategory(c.level.level)
  {
    var aqi := AqiFromPM(ComputePM(data));
    AqiNotNegative(ComputePM(data));
    CalculateLevelMatchesCategory(aqi);
  }

  /**
   * A field without a leading integer makes the concentration NaN, which is
   * shown as "-" in the Good category with level 0.
   */
  lemma UnreadableFieldShowsGood(data: SensorData, stats: Stats)
    requires !StartsWithInteger(data.adj1) || !StartsWithInteger(data.adj2) || !StartsWithInteger(data.hum)
    ensures Classify(data, stats).Ok?
    ensures var c := Classify(data, stats).value;
      c.pm.NaN? && c.aqi == Dash && c.level.level == 0 && c.level.attribute.name == "Good"
  {
    ComputePMNaNIff(data);
    DashIsGood();
  }
}
