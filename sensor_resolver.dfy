/**
 * `getSensorId`: which PurpleAir sensor the widget reads. A widget parameter
 * wins outright; a rate-limited directory answer falls back to the default
 * sensor; otherwise the nearest outdoor sensor in the column-oriented
 * directory answer is taken, the first one on ties.
 *
 * The device location and the directory request are inputs here: the answer
 * is the `response` parameter and the great-circle distance from the device
 * to a row's (latitude, longitude) cells is the `haversine` parameter.
 */
module SensorResolver {
  import opened Wrappers
  import opened JsValues

  const DEFAULT_SENSOR_ID: int := 69223
  const RATE_LIMIT: int := 429
  const OUTDOOR: real := 0.0

  /** One directory row: its cells are laid out as the `fields` list says. */
  type Row = seq<JsValue>

  /** The directory's JSON answer; `fields` or `data` may be absent. */
  datatype Response = Response(code: Option<int>, fields: Option<seq<string>>, data: Option<seq<Row>>)

  /** The sensor id as a JavaScript value. */
  function DefaultSensor(): JsValue
  {
    Number(Fin(DEFAULT_SENSOR_ID as real))
  }

  /** A widget parameter is truthy unless it is absent or the empty string. */
  predicate Truthy(parameter: Option<string>)
  {
    parameter.Some? && parameter.value != ""
  }

  /** `fields.indexOf(name)`: the first position of `name`, or -1. */
  function IndexOf(fields: seq<string>, name: string): (r: int)
    ensures -1 <= r < |fields|
    ensures r == -1 <==> name !in fields
    ensures r >= 0 ==> fields[r] == name && name !in fields[..r]
  {
    if fields == [] then -1
    else if fields[0] == name then 0
    else
      var i := IndexOf(fields[1..], name);
      assert fields[1..][..if i < 0 then 0 else i] == fields[1..1 + (if i < 0 then 0 else i)];
      if i < 0 then -1 else i + 1
  }

  /** `row[i]`: undefined outside the row, in particular at index -1. */
  function At(row: Row, i: int): JsValue
  {
    if 0 <= i < |row| then row[i] else Undefined
  }

  /** `datum[typeIndex] === OUTDOOR`. */
  predicate IsOutdoor(row: Row, typeIndex: int)
  {
    At(row, typeIndex) == Number(Fin(OUTDOOR))
  }

  /** `data.filter(datum => datum[typeIndex] === OUTDOOR)`. */
  function Outdoor(data: seq<Row>, typeIndex: int): (r: seq<Row>)
    ensures |r| <= |data|
    ensures forall row :: row in r <==> row in data && IsOutdoor(row, typeIndex)
  {
    if data == [] then []
    else if IsOutdoor(data[0], typeIndex) then [data[0]] + Outdoor(data[1..], typeIndex)
    else Outdoor(data[1..], typeIndex)
  }

  /** The filter keeps the rows' order: filtering a concatenation filters each part. */
  lemma {:induction false} OutdoorDistributes(a: seq<Row>, b: seq<Row>, typeIndex: int)
    ensures Outdoor(a + b, typeIndex) == Outdoor(a, typeIndex) + Outdoor(b, typeIndex)
  {
    if a == [] {
      assert a + b == b;
    } else {
      assert (a + b)[1..] == a[1..] + b;
      OutdoorDistributes(a[1..], b, typeIndex);
    }
  }

  /**
   * Distance from the device to a row: `haversine` from the device's
   * location to the row's latitude and longitude cells.
   */
  datatype Geometry = Geometry(haversine: (JsValue, JsValue) -> Num, latIndex: int, lonIndex: int)
  {
    function Distance(row: Row): Num
    {
      haversine(At(row, latIndex), At(row, lonIndex))
    }
  }

  /** `closestDistance`: starts at Infinity, then holds the best distance so far. */
  datatype Bound = Infinity | Finite(d: real)

  /** `distance < closestDistance`; false for NaN. */
  predicate Below(distance: Num, bound: Bound)
  {
    distance.Fin? && (bound.Infinity? || distance.v < bound.d)
  }

  /**
   * Row `k` is the first nearest among `rows[..n]`: its distance is a number,
   * strictly below every earlier row's, and no later row's is smaller. Rows
   * whose distance is NaN never compete.
   */
  ghost predicate IsFirstNearestIn(rows: seq<Row>, geo: Geometry, k: nat, n: nat)
  {
    k < n <= |rows| && geo.Distance(rows[k]).Fin? &&
    (forall j :: 0 <= j < k ==> geo.Distance(rows[j]).NaN? || geo.Distance(rows[j]).v > geo.Distance(rows[k]).v) &&
    (forall j :: k < j < n ==> geo.Distance(rows[j]).NaN? || geo.Distance(rows[j]).v >= geo.Distance(rows[k]).v)
  }

  ghost predicate IsFirstNearest(rows: seq<Row>, geo: Geometry, k: nat)
  {
    IsFirstNearestIn(rows, geo, k, |rows|)
  }

  /** At most one row is the first nearest, so the choice below is determined. */
  lemma FirstNearestUnique(rows: seq<Row>, geo: Geometry, k1: nat, k2: nat)
    requires IsFirstNearest(rows, geo, k1) && IsFirstNearest(rows, geo, k2)
    ensures k1 == k2
  {
  }

  /**
   * The scan over the outdoor rows: keep a row when its distance is strictly
   * below the best so far.
   */
  method Closest(rows: seq<Row>, geo: Geometry) returns (closestSensor: Option<Row>)
    ensures closestSensor.None? <==> forall j :: 0 <= j < |rows| ==> geo.Distance(rows[j]).NaN?
    ensures closestSensor.Some? ==>
      exists k: nat :: IsFirstNearest(rows, geo, k) && rows[k] == closestSensor.value
  {
    closestSensor := None;
    var closestDistance := Infinity;
    ghost var k: nat := 0;
    for i := 0 to |rows|
      invariant closestSensor.None? <==> forall j :: 0 <= j < i ==> geo.Distance(rows[j]).NaN?
      invariant closestSensor.None? ==> closestDistance == Infinity
      invariant closestSensor.Some? ==>
        IsFirstNearestIn(rows, geo, k, i) && rows[k] == closestSensor.value &&
        closestDistance == Finite(geo.Distance(rows[k]).v)
    {
      var distanceFromLocation := geo.Distance(rows[i]);
      if Below(distanceFromLocation, closestDistance) {
        closestDistance := Finite(distanceFromLocation.v);
        closestSensor := Some(rows[i]);
        k := i;
      }
    }
  }

  /** The column positions `getSensorId` looks up by name. */
  datatype Columns = Columns(id: int, lat: int, lon: int, kind: int)

  function ColumnsOf(fields: seq<string>): Columns
  {
    Columns(IndexOf(fields, "ID"), IndexOf(fields, "Lat"), IndexOf(fields, "Lon"), IndexOf(fields, "Type"))
  }

  /** Without a "Type" column no row counts as outdoor, so the default sensor is used. */
  lemma NoTypeColumnNoCandidates(response: Response)
    requires Readable(response) && "Type" !in response.fields.value
    ensures OutdoorRows(response) == []
  {
    NothingOutdoorWithoutColumn(response.data.value);
  }

  lemma {:induction false} NothingOutdoorWithoutColumn(data: seq<Row>)
    ensures Outdoor(data, -1) == []
  {
    if data != [] {
      NothingOutdoorWithoutColumn(data[1..]);
    }
  }

  /** A directory answer that carries both `fields` and `data`. */
  predicate Readable(response: Response)
  {
    response.fields.Some? && response.data.Some?
  }

  function IdIndex(response: Response): int
    requires Readable(response)
  {
    ColumnsOf(response.fields.value).id
  }

  /** The rows the scan visits, in the directory's order. */
  function OutdoorRows(response: Response): seq<Row>
    requires Readable(response)
  {
    Outdoor(response.data.value, ColumnsOf(response.fields.value).kind)
  }

  function GeometryOf(response: Response, haversine: (JsValue, JsValue) -> Num): Geometry
    requires Readable(response)
  {
    var columns := ColumnsOf(response.fields.value);
    Geometry(haversine, columns.lat, columns.lon)
  }

  /**
   * `fields.indexOf` and `data.filter` on an absent `fields` or `data`
   * throw a TypeError.
   */
  method GetSensorId(widgetParameter: Option<string>, response: Response, haversine: (JsValue, JsValue) -> Num)
    returns (r: Result<JsValue, JsError>)
    ensures Truthy(widgetParameter) ==> r == Ok(Text(widgetParameter.value))
    ensures !Truthy(widgetParameter) && response.code == Some(RATE_LIMIT) ==> r == Ok(DefaultSensor())
    ensures !Truthy(widgetParameter) && response.code != Some(RATE_LIMIT) ==>
      (r.Err? <==> !Readable(response))
    ensures !Truthy(widgetParameter) && response.code != Some(RATE_LIMIT) && Readable(response) ==>
      var rows, geo := OutdoorRows(response), GeometryOf(response, haversine);
      && ((forall j :: 0 <= j < |rows| ==> geo.Distance(rows[j]).NaN?) ==> r == Ok(DefaultSensor()))
      && ((exists j :: 0 <= j < |rows| && geo.Distance(rows[j]).Fin?) ==>
            exists k: nat :: IsFirstNearest(rows, geo, k) && r == Ok(At(rows[k], IdIndex(response))))
  {
    if Truthy(widgetParameter) {
      return Ok(Text(widgetParameter.value));
    }
    if response.code == Some(RATE_LIMIT) {
      return Ok(DefaultSensor());
    }
    if !Readable(response) {
      return Err(TypeError("Cannot read properties of undefined"));
    }
    var closestSensor := Closest(OutdoorRows(response), GeometryOf(response, haversine));
    r := if closestSensor.Some? then Ok(At(closestSensor.value, IdIndex(response))) else Ok(DefaultSensor());
  }
}
