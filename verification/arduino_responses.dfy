/**
 * `ArduinoResponse`: the raw reading the smart pot's controller sends, its
 * plausibility check, and its conversion into a stored `SensorData`.
 */
module ArduinoResponses {
  import opened Nullable
  import opened Numbers
  import opened SensorReadings

  datatype ArduinoResponse = ArduinoResponse(
    reading: Reading,
    /** Milliseconds since the epoch, a Java `long`. */
    timestamp: Long,
    status: Option<string>,
    version: Option<string>)

  /** `new ArduinoResponse()`: zero readings, the clock as timestamp, status "unknown". */
  function EmptyResponse(now: Long): (a: ArduinoResponse)
    ensures a.reading == ZeroReading && a.timestamp == now
    ensures a.status == Some("unknown") && a.version.None?
  {
    ArduinoResponse(ZeroReading, now, Some("unknown"), None)
  }

  /** The full constructor: stores every value given and sets status "ok". */
  function FullResponse(r: Reading, timestamp: Long): (a: ArduinoResponse)
    ensures a.reading == r && a.timestamp == timestamp
    ensures a.status == Some("ok") && a.version.None?
  {
    ArduinoResponse(r, timestamp, Some("ok"), None)
  }

  /**
   * `isValid()`: every reading lies in its sensor's physical range, bounds
   * included: soil, ambient and water 0-100 %, temperature -40 to 85 °C,
   * UV index 0-15, and a non-negative pest count.
   */
  predicate IsValid(a: ArduinoResponse) {
    var r := a.reading;
    && 0.0 <= r.soilHumidity <= 100.0
    && -40.0 <= r.temperature <= 85.0
    && 0.0 <= r.ambientHumidity <= 100.0
    && 0.0 <= r.uvLevel <= 15.0
    && 0.0 <= r.waterLevel <= 100.0
    && r.pestCount >= 0
  }

  /**
   * Among valid readings, the fixed pest classifier never meets a negative
   * count, so its WARNING band means one or two pests.
   */
  lemma ValidPestWarningMeansOneOrTwo(a: ArduinoResponse)
    requires IsValid(a)
    ensures PestStatus(a.reading.pestCount) == PestWarning <==> 1 <= a.reading.pestCount <= 2
  {
  }

  /**
   * `toSensorData(plantId)`: a fresh `SensorData` filled through its setters
   * (plant id, the six readings, then the timestamp as decimal text).
   */
  function ToSensorData(a: ArduinoResponse, plantId: int, now: Long): (d: SensorData)
    ensures Consistent(d)
    ensures d.plantId == plantId && d.id == 0
    ensures d.reading == a.reading
    ensures d.timestamp == DecimalString(a.timestamp) && ParseLong(d.timestamp) == Some(a.timestamp)
  {
    var d0 := NewSensorData(now);
    var d1 := d0.(plantId := plantId);
    var d2 := SetSoilHumidity(d1, a.reading.soilHumidity);
    var d3 := SetTemperature(d2, a.reading.temperature);
    var d4 := SetAmbientHumidity(d3, a.reading.ambientHumidity);
    var d5 := SetUvLevel(d4, a.reading.uvLevel);
    var d6 := SetWaterLevel(d5, a.reading.waterLevel);
    var d7 := SetPestCount(d6, a.reading.pestCount);
    ParseLongOfDecimalString(a.timestamp);
    d7.(timestamp := DecimalString(a.timestamp))
  }

  /** The clock at conversion time leaves no trace in the result. */
  lemma ToSensorDataIgnoresClock(a: ArduinoResponse, plantId: int, t1: Long, t2: Long)
    ensures ToSensorData(a, plantId, t1) == ToSensorData(a, plantId, t2)
  {
  }
}
