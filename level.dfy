/**
 * `LEVEL_ATTRIBUTES` and `calculateLevel`: the AQI category table, sorted by
 * strictly descending threshold, and the lookup that takes the first entry
 * whose threshold the level exceeds.
 */
module AqiLevel {
  import opened Wrappers
  import opened JsValues
  import opened AqiConversion

  /** One category: threshold, label (`name`, since `label` is a Dafny keyword), and light- and dark-mode colours. */
  datatype LevelAttribute = LevelAttribute(
    threshold: int,
    name: string,
    startColor: string,
    endColor: string,
    textColor: string,
    darkStartColor: string,
    darkEndColor: string,
    darkTextColor: string)

  const LEVEL_ATTRIBUTES: seq<LevelAttribute> := [
    LevelAttribute(300, "Hazardous", "9e2043", "7e0023", "ffffff", "9e2043", "7e0023", "bbbbbb"),
    LevelAttribute(200, "Very Unhealthy", "edc4ff", "edc4ff", "8f3f97", "8f3f97", "6f1f77", "ffffff"),
    LevelAttribute(150, "Unhealthy", "FF3D3D", "D60000", "000000", "820a00", "530500", "999999"),
    LevelAttribute(100, "Unhealthy for Sensitive Groups", "facc00", "faa003", "000000", "333333", "000000", "ff7600"),
    LevelAttribute(50, "Moderate", "ffff00", "dddd00", "000000", "333333", "000000", "ffff00"),
    LevelAttribute(-20, "Good", "00ff00", "00bb00", "000000", "005500", "003300", "ffffff")
  ]

  /** What `calculateLevel` returns: the matched entry's fields and the coerced level. */
  datatype Level = Level(attribute: LevelAttribute, level: int)

  predicate StrictlyDescending(table: seq<LevelAttribute>)
  {
    forall i, j :: 0 <= i < j < |table| ==> table[i].threshold > table[j].threshold
  }

  lemma TableStrictlyDescending()
    ensures StrictlyDescending(LEVEL_ATTRIBUTES)
    ensures LEVEL_ATTRIBUTES[|LEVEL_ATTRIBUTES| - 1].threshold == -20
  {
  }

  /** `Number(aqi)`: the string "-" is not numeric and converts to NaN; an index is already a number. */
  function ToNumber(aqi: Aqi): (r: Num)
    ensures r.NaN? <==> aqi.Dash?
    ensures r.Fin? ==> r.v == r.v.Floor as real
  {
    match aqi
    case Dash => NaN
    case Index(n) => Fin(n as real)
  }

  /**
   * `Number(aqi) || 0`: the result is the JavaScript value of the expression,
   * always an integer; "-" goes through NaN to 0, and an index, 0 included,
   * keeps its value.
   */
  function Coerce(aqi: Aqi): (level: int)
    ensures OrZero(ToNumber(aqi)) == Fin(level as real)
    ensures aqi.Dash? ==> level == 0
    ensures aqi.Index? ==> level == aqi.n
  {
    OrZero(ToNumber(aqi)).v.Floor
  }

  /** `Array.prototype.find` with `level > threshold`: the first entry that matches. */
  function FindAbove(table: seq<LevelAttribute>, level: int): (r: Option<nat>)
    ensures r.None? <==> forall i :: 0 <= i < |table| ==> level <= table[i].threshold
    ensures r.Some? ==> r.value < |table| && level > table[r.value].threshold
    ensures r.Some? ==> forall i :: 0 <= i < r.value ==> level <= table[i].threshold
  {
    if table == [] then None
    else if level > table[0].threshold then Some(0)
    else
      match FindAbove(table[1..], level)
      case None => None
      case Some(i) => Some(i + 1)
  }

  /**
   * With no matching entry, destructuring the `undefined` that `find`
   * returns throws a TypeError.
   */
  function CalculateLevel(aqi: Aqi): (r: Result<Level, JsError>)
    ensures r.Err? <==> forall i :: 0 <= i < |LEVEL_ATTRIBUTES| ==> Coerce(aqi) <= LEVEL_ATTRIBUTES[i].threshold
    ensures r.Ok? ==> r.value.level == Coerce(aqi) && Coerce(aqi) > r.value.attribute.threshold
    ensures r.Ok? ==> exists i :: 0 <= i < |LEVEL_ATTRIBUTES| && LEVEL_ATTRIBUTES[i] == r.value.attribute
  {
    var level := Coerce(aqi);
    match FindAbove(LEVEL_ATTRIBUTES, level)
    case None => Err(TypeError("Cannot destructure undefined"))
    case Some(i) => Ok(Level(LEVEL_ATTRIBUTES[i], level))
  }

  /** The entry that covers `level`: above its threshold, at most the previous one. */
  predicate Covers(table: seq<LevelAttribute>, i: nat, level: int)
    requires i < |table|
  {
    table[i].threshold < level && (i == 0 || level <= table[i - 1].threshold)
  }

  /**
   * In a strictly descending table every level above the last threshold is
   * covered by exactly one entry, and `find` returns that entry.
   */
  lemma ExactlyOneEntry(table: seq<LevelAttribute>, level: int)
    requires StrictlyDescending(table) && table != []
    requires level > table[|table| - 1].threshold
    ensures FindAbove(table, level).Some?
    ensures Covers(table, FindAbove(table, level).value, level)
    ensures forall i :: 0 <= i < |table| && Covers(table, i, level) ==> i == FindAbove(table, level).value
  {
  }

  /** The AirNow category names for an integer index, by their inclusive ranges. */
  function EpaCategory(aqi: int): string
  {
    if aqi <= 50 then "Good"
    else if aqi <= 100 then "Moderate"
    else if aqi <= 150 then "Unhealthy for Sensitive Groups"
    else if aqi <= 200 then "Unhealthy"
    else if aqi <= 300 then "Very Unhealthy"
    else "Hazardous"
  }

  /**
   * For every level above -20 the lookup succeeds, keeps the coerced level,
   * and names the AirNow category; at -20 and below it throws.
   */
  lemma CalculateLevelMatchesCategory(aqi: Aqi)
    ensures Coerce(aqi) > -20 ==>
      CalculateLevel(aqi).Ok? &&
      CalculateLevel(aqi).value.level == Coerce(aqi) &&
      CalculateLevel(aqi).value.attribute.name == EpaCategory(Coerce(aqi))
    ensures Coerce(aqi) <= -20 ==> CalculateLevel(aqi).Err?
  {
    var level := Coerce(aqi);
    if level > -20 {
      FindAboveNamesCategory(level);
      var i := FindAbove(LEVEL_ATTRIBUTES, level).value;
      assert CalculateLevel(aqi) == Ok(Level(LEVEL_ATTRIBUTES[i], level));
    } else {
      TableStrictlyDescending();
      assert FindAbove(LEVEL_ATTRIBUTES, level).None?;
    }
  }

  /** Above -20 the lookup finds the entry of the level's AirNow category. */
  lemma FindAboveNamesCategory(level: int)
    requires level > -20
    ensures FindAbove(LEVEL_ATTRIBUTES, level).Some?
    ensures LEVEL_ATTRIBUTES[FindAbove(LEVEL_ATTRIBUTES, level).value].name == EpaCategory(level)
  {
    TableStrictlyDescending();
    ExactlyOneEntry(LEVEL_ATTRIBUTES, level);
    CoveredLevelNamesCategory(FindAbove(LEVEL_ATTRIBUTES, level).value, level);
  }

  /** The interval each entry covers is the AirNow range of its category. */
  lemma CoveredLevelNamesCategory(k: nat, level: int)
    requires k < |LEVEL_ATTRIBUTES| && Covers(LEVEL_ATTRIBUTES, k, level)
    ensures LEVEL_ATTRIBUTES[k].name == EpaCategory(level)
  {
    if k == 0 {
    } else if k == 1 {
    } else if k == 2 {
    } else if k == 3 {
    } else if k == 4 {
    } else {
      assert k == 5;
    }
  }

  /** "-" (a negative or NaN concentration) is shown as Good with level 0. */
  lemma DashIsGood()
    ensures CalculateLevel(Dash) == Ok(Level(LEVEL_ATTRIBUTES[5], 0))
    ensures LEVEL_ATTRIBUTES[5].name == "Good"
  {
    CalculateLevelMatchesCategory(Dash);
  }

  /** The thresholds are exclusive: 50 is Good, 51 Moderate, 300 Very Unhealthy, 301 Hazardous. */
  lemma CategoryEdges()
    ensures CalculateLevel(Index(50)).Ok? && CalculateLevel(Index(51)).Ok?
    ensures CalculateLevel(Index(300)).Ok? && CalculateLevel(Index(301)).Ok?
    ensures CalculateLevel(Index(50)).value.attribute.name == "Good"
    ensures CalculateLevel(Index(51)).value.attribute.name == "Moderate"
    ensures CalculateLevel(Index(300)).value.attribute.name == "Very Unhealthy"
    ensures CalculateLevel(Index(301)).value.attribute.name == "Hazardous"
  {
    assert CalculateLevel(Index(50)).value.attribute.name == "Good" by {
      assert Coerce(Index(50)) == 50;
      assert EpaCategory(50) == "Good";
      CalculateLevelMatchesCategory(Index(50));
    }
    assert CalculateLevel(Index(51)).value.attribute.name == "Moderate" by {
      assert Coerce(Index(51)) == 51;
      assert EpaCategory(51) == "Moderate";
      CalculateLevelMatchesCategory(Index(51));
    }
    assert CalculateLevel(Index(300)).value.attribute.name == "Very Unhealthy" by {
      assert Coerce(Index(300)) == 300;
      assert EpaCategory(300) == "Very Unhealthy";
      CalculateLevelMatchesCategory(Index(300));
    }
    assert CalculateLevel(Index(301)).value.attribute.name == "Hazardous" by {
      assert Coerce(Index(301)) == 301;
      assert EpaCategory(301) == "Hazardous";
      CalculateLevelMatchesCategory(Index(301));
    }
  }
}
