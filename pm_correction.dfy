/**
 * `computePM`: the EPA wood-smoke correction of the two PurpleAir channels'
 * CF=1 PM2.5 readings, using relative humidity. The three fields arrive as
 * strings and are read with `parseInt(…, 10)`.
 */
module PmCorrection {
  import opened JsValues
  import opened JsParseInt

  /** The sensor fields that `computePM` reads. */
  datatype SensorData = SensorData(adj1: string, adj2: string, hum: string)

  function ComputePM(data: SensorData): (r: Num)
    ensures r.Fin? <==> ParseInt(data.adj1).Fin? && ParseInt(data.adj2).Fin? && ParseInt(data.hum).Fin?
  {
    var adj1 := ParseInt(data.adj1);
    var adj2 := ParseInt(data.adj2);
    var hum := ParseInt(data.hum);
    var dataAverage := DivBy(Add(adj1, adj2), 2.0);
    Add(Sub(Scale(0.52, dataAverage), Scale(0.085, hum)), Fin(5.71))
  }

  /**
   * When every field starts with an integer the result is the linear
   * correction of the parsed values; otherwise it is NaN.
   */
  lemma ComputePMFormula(data: SensorData)
    ensures
      var a1, a2, h := ParseInt(data.adj1), ParseInt(data.adj2), ParseInt(data.hum);
      ComputePM(data) ==
        if a1.Fin? && a2.Fin? && h.Fin?
        then Fin(0.52 * ((a1.v + a2.v) / 2.0) - 0.085 * h.v + 5.71)
        else NaN
  {
  }

  /** NaN comes out exactly when some field has no leading integer. */
  lemma ComputePMNaNIff(data: SensorData)
    ensures ComputePM(data).NaN? <==>
      !StartsWithInteger(data.adj1) || !StartsWithInteger(data.adj2) || !StartsWithInteger(data.hum)
  {
    ParseIntNaNIff(data.adj1);
    ParseIntNaNIff(data.adj2);
    ParseIntNaNIff(data.hum);
  }

  /** Only the integer part of each field matters: "12.9" counts as 12. */
  lemma ComputePMIgnoresFraction(adj2: string, hum: string)
    ensures ComputePM(SensorData("12.9", adj2, hum)) == ComputePM(SensorData("12", adj2, hum))
  {
    ParseIntDropsFraction();
    ParseTwoDigits(12);
    assert [DigitChar(1), DigitChar(2)] == "12";
    assert ParseInt("12.9") == ParseInt("12");
  }

  /** A reading of 10 and 20 µg/m³ at 50 % humidity corrects to 9.26 µg/m³. */
  lemma ComputePMExample()
    ensures ComputePM(SensorData("10", "20", "50")) == Fin(9.26)
  {
    ParseTwoDigits(10);
    assert [DigitChar(1), DigitChar(0)] == "10";
    ParseTwoDigits(20);
    assert [DigitChar(2), DigitChar(0)] == "20";
    ParseTwoDigits(50);
    assert [DigitChar(5), DigitChar(0)] == "50";
    assert ParseInt("10") == Fin(10.0) && ParseInt("20") == Fin(20.0) && ParseInt("50") == Fin(50.0);
    ComputePMFormula(SensorData("10", "20", "50"));
  }

  lemma ParseTwoDigits(n: nat)
    requires 10 <= n < 100
    ensures ParseInt([DigitChar(n / 10), DigitChar(n % 10)]) == Fin(n as real)
  {
    assert NatToDecimal(n) + [] == [DigitChar(n / 10), DigitChar(n % 10)];
    ParseIntRoundTrip(n, []);
  }
}
