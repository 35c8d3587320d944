/**
 * `aqiFromPM` and `calculateAQI`: the US EPA breakpoint interpolation that
 * turns a PM2.5 concentration into an Air Quality Index. The seven bands are
 * checked from the top down with strict `>` guards, the last with `>= 0`; any
 * other input (negative or NaN) gives the string "-".
 */
module AqiConversion {
  import opened JsValues

  /** What `aqiFromPM` returns: the string "-" or a number, always an integer. */
  datatype Aqi = Dash | Index(n: int)

  /**
   * Linear interpolation of `cp` from the concentration band [bpl, bph] onto
   * the index band [il, ih], rounded as `Math.round` does. A concentration
   * inside the band gives an index inside the (rounded) index band.
   */
  function CalculateAQI(cp: real, ih: real, il: real, bph: real, bpl: real): (r: int)
    requires bpl < bph
    ensures il <= ih && bpl <= cp <= bph ==> Round(il) <= r <= Round(ih)
  {
    var a := ih - il;
    var b := bph - bpl;
    var c := cp - bpl;
    var slope := a / b;
    assert il <= ih && bpl <= cp <= bph ==> 0.0 <= slope * c <= a by {
      if il <= ih && bpl <= cp <= bph {
        assert slope * b == a;
        MulMonotone(slope, c, b);
      }
    }
    Round(slope * c + il)
  }

  lemma MulMonotone(k: real, x: real, y: real)
    requires 0.0 <= k && 0.0 <= x <= y
    ensures 0.0 <= k * x <= k * y
  {
  }

  function AqiFromPM(pm: Num): (r: Aqi)
    ensures r.Dash? <==> !AtLeast(pm, 0.0)
  {
    if Greater(pm, 350.5) then Index(CalculateAQI(pm.v, 500.0, 401.0, 500.0, 350.5))
    else if Greater(pm, 250.5) then Index(CalculateAQI(pm.v, 400.0, 301.0, 350.4, 250.5))
    else if Greater(pm, 150.5) then Index(CalculateAQI(pm.v, 300.0, 201.0, 250.4, 150.5))
    else if Greater(pm, 55.5) then Index(CalculateAQI(pm.v, 200.0, 151.0, 150.4, 55.5))
    else if Greater(pm, 35.5) then Index(CalculateAQI(pm.v, 150.0, 101.0, 55.4, 35.5))
    else if Greater(pm, 12.1) then Index(CalculateAQI(pm.v, 100.0, 51.0, 35.4, 12.1))
    else if AtLeast(pm, 0.0) then Index(CalculateAQI(pm.v, 50.0, 0.0, 12.0, 0.0))
    else Dash
  }

  /** The index of a non-negative concentration. */
  function AqiOf(pm: real): int
    requires pm >= 0.0
  {
    AqiFromPM(Fin(pm)).n
  }

  /**
   * Each guard band lands inside its EPA index band: 0–50, 51–100, 101–150,
   * 151–200, 201–300, 301–400, and from 401 up (the top band is not clamped).
   */
  lemma AqiBandBounds(pm: real)
    requires pm >= 0.0
    ensures pm <= 12.1 ==> 0 <= AqiOf(pm) <= 50
    ensures 12.1 < pm <= 35.5 ==> 51 <= AqiOf(pm) <= 100
    ensures 35.5 < pm <= 55.5 ==> 101 <= AqiOf(pm) <= 150
    ensures 55.5 < pm <= 150.5 ==> 151 <= AqiOf(pm) <= 200
    ensures 150.5 < pm <= 250.5 ==> 201 <= AqiOf(pm) <= 300
    ensures 250.5 < pm <= 350.5 ==> 301 <= AqiOf(pm) <= 400
    ensures 350.5 < pm ==> 401 <= AqiOf(pm)
  {
    if pm > 350.5 {
      MulMonotone(99.0 / 149.5, 0.0, pm - 350.5);
    } else if pm > 250.5 {
      MulMonotone(99.0 / 99.9, pm - 250.5, 100.0);
    } else if pm > 150.5 {
      MulMonotone(99.0 / 99.9, pm - 150.5, 100.0);
    } else if pm > 55.5 {
      MulMonotone(49.0 / 94.9, pm - 55.5, 95.0);
    } else if pm > 35.5 {
      MulMonotone(49.0 / 19.9, pm - 35.5, 20.0);
    } else if pm > 12.1 {
      MulMonotone(49.0 / 23.3, pm - 12.1, 23.4);
    } else {
      MulMonotone(50.0 / 12.0, pm, 12.1);
    }
  }

  /** Band of a non-negative concentration, numbered from the bottom as the guards select it. */
  function BandOf(pm: real): nat
    requires pm >= 0.0
  {
    if pm > 350.5 then 6 else if pm > 250.5 then 5 else if pm > 150.5 then 4
    else if pm > 55.5 then 3 else if pm > 35.5 then 2 else if pm > 12.1 then 1 else 0
  }

  /** The index never decreases as the concentration grows, across band edges included. */
  lemma AqiMonotone(x: real, y: real)
    requires 0.0 <= x <= y
    ensures AqiOf(x) <= AqiOf(y)
  {
    AqiBandBounds(x);
    AqiBandBounds(y);
    if BandOf(x) == BandOf(y) {
      match BandOf(x)
      case 6 => MulMonotone(99.0 / 149.5, x - 350.5, y - 350.5);
      case 5 => MulMonotone(99.0 / 99.9, x - 250.5, y - 250.5);
      case 4 => MulMonotone(99.0 / 99.9, x - 150.5, y - 150.5);
      case 3 => MulMonotone(49.0 / 94.9, x - 55.5, y - 55.5);
      case 2 => MulMonotone(49.0 / 19.9, x - 35.5, y - 35.5);
      case 1 => MulMonotone(49.0 / 23.3, x - 12.1, y - 12.1);
      case 0 => MulMonotone(50.0 / 12.0, x, y);
    }
  }

  /** On the EPA scale's concentration range the index stays on the 0–500 scale. */
  lemma AqiRange(pm: real)
    requires 0.0 <= pm <= 500.0
    ensures 0 <= AqiOf(pm) <= 500
  {
    AqiBandBounds(pm);
    AqiMonotone(pm, 500.0);
    assert AqiOf(500.0) == 500;
  }

  /**
   * The top of each EPA concentration band maps to the top of its index band,
   * and zero maps to zero.
   */
  lemma AqiReferenceValues()
    ensures AqiOf(0.0) == 0
    ensures AqiOf(12.0) == 50
    ensures AqiOf(35.4) == 100
    ensures AqiOf(55.4) == 150
    ensures AqiOf(150.4) == 200
    ensures AqiOf(250.4) == 300
    ensures AqiOf(350.4) == 400
    ensures AqiOf(500.0) == 500
  {
  }

  /**
   * The guards are strict, so a concentration exactly on an EPA lower
   * breakpoint falls into the band below: 12.1 gives 50 and 350.5 gives 400,
   * while anything a little above gives 51 and 401.
   */
  lemma AqiAtBandEdges(x: real, y: real)
    requires 12.1 < x <= 12.2
    requires 350.5 < y <= 350.6
    ensures AqiOf(12.1) == 50 && AqiOf(x) == 51
    ensures AqiOf(350.5) == 400 && AqiOf(y) == 401
  {
    MulMonotone(49.0 / 23.3, x - 12.1, 0.1);
    MulMonotone(99.0 / 149.5, y - 350.5, 0.1);
  }

  /**
   * Nothing clamps the top band: above 500 µg/m³ the index keeps growing,
   * passing 500 once the concentration reaches 501.
   */
  lemma AqiBeyondScale(pm: real)
    requires pm > 500.0
    ensures AqiOf(pm) >= 500
    ensures pm >= 501.0 ==> AqiOf(pm) > 500
  {
    AqiMonotone(500.0, pm);
    if pm >= 501.0 {
      AqiMonotone(501.0, pm);
      assert AqiOf(501.0) == 501;
    }
  }

  /** NaN, like any negative concentration, gives "-". */
  lemma AqiOfNaN()
    ensures AqiFromPM(NaN) == Dash && AqiFromPM(Fin(-0.5)) == Dash
  {
  }
}
