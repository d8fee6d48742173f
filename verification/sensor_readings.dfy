/**
 * `SensorData`: one stored reading of the smart pot together with six status
 * fields that a fixed-threshold classifier (independent of the plant) keeps
 * in step with the readings.
 */
module SensorReadings {
  import opened Nullable
  import opened Numbers
  import opened Text

  /** The six values of one reading; shared with the device's raw response. */
  datatype Reading = Reading(
    soilHumidity: real,
    temperature: real,
    ambientHumidity: real,
    uvLevel: real,
    waterLevel: real,
    pestCount: int)

  /** The readings of a freshly allocated object: every number is zero. */
  const ZeroReading: Reading := Reading(0.0, 0.0, 0.0, 0.0, 0.0, 0)

  /** The status strings `evaluateStatuses` assigns. */
  datatype Status =
    | Optimal | Low | High | CriticalLow | CriticalHigh
    | NoPests | PestWarning | PestCritical
  {
    function Name(): string {
      match this
      case Optimal => "OPTIMAL"
      case Low => "LOW"
      case High => "HIGH"
      case CriticalLow => "CRITICAL_LOW"
      case CriticalHigh => "CRITICAL_HIGH"
      case NoPests => "NONE"
      case PestWarning => "WARNING"
      case PestCritical => "CRITICAL"
    }

    /** Position on the scale from "far too low" to "far too high". */
    function Rank(): int {
      match this
      case CriticalLow => 0
      case Low => 1
      case Optimal => 2
      case High => 3
      case CriticalHigh => 4
      case NoPests => 0
      case PestWarning => 1
      case PestCritical => 2
    }
  }

  datatype Statuses = Statuses(
    soil: Status,
    temperature: Status,
    ambient: Status,
    uv: Status,
    water: Status,
    pest: Status)

  /**
   * A `SensorData` object. `statuses` is `None` while the six status fields
   * are still `null` (after the empty constructor, before any reading setter).
   */
  datatype SensorData = SensorData(
    id: int,
    plantId: int,
    reading: Reading,
    timestamp: string,
    statuses: Option<Statuses>)

  function SoilStatus(v: real): (s: Status)
    ensures s == CriticalLow <==> v < 15.0
    ensures s == Low <==> 15.0 <= v < 30.0
    ensures s == Optimal <==> 30.0 <= v <= 60.0
    ensures s == High <==> 60.0 < v <= 70.0
    ensures s == CriticalHigh <==> 70.0 < v
  {
    if v < 15.0 then CriticalLow
    else if v < 30.0 then Low
    else if v > 70.0 then CriticalHigh
    else if v > 60.0 then High
    else Optimal
  }

  function TemperatureStatus(v: real): (s: Status)
    ensures s == CriticalLow <==> v < 10.0
    ensures s == Low <==> 10.0 <= v < 18.0
    ensures s == Optimal <==> 18.0 <= v <= 26.0
    ensures s == High <==> 26.0 < v <= 30.0
    ensures s == CriticalHigh <==> 30.0 < v
  {
    if v < 10.0 then CriticalLow
    else if v < 18.0 then Low
    else if v > 30.0 then CriticalHigh
    else if v > 26.0 then High
    else Optimal
  }

  /** Ambient humidity has no CRITICAL_HIGH band. */
  function AmbientStatus(v: real): (s: Status)
    ensures s in {CriticalLow, Low, Optimal, High}
    ensures s == CriticalLow <==> v < 35.0
    ensures s == Low <==> 35.0 <= v < 40.0
    ensures s == Optimal <==> 40.0 <= v <= 60.0
    ensures s == High <==> 60.0 < v
  {
    if v < 35.0 then CriticalLow
    else if v < 40.0 then Low
    else if v > 60.0 then High
    else Optimal
  }

  /** UV has no CRITICAL_LOW band: any level below 2 is only LOW. */
  function UvStatus(v: real): (s: Status)
    ensures s in {Low, Optimal, High, CriticalHigh}
    ensures s == Low <==> v < 2.0
    ensures s == Optimal <==> 2.0 <= v <= 6.0
    ensures s == High <==> 6.0 < v <= 8.0
    ensures s == CriticalHigh <==> 8.0 < v
  {
    if v < 2.0 then Low
    else if v > 8.0 then CriticalHigh
    else if v > 6.0 then High
    else Optimal
  }

  function WaterStatus(v: real): (s: Status)
    ensures s in {CriticalLow, Low, Optimal}
    ensures s == CriticalLow <==> v < 10.0
    ensures s == Low <==> 10.0 <= v < 30.0
    ensures s == Optimal <==> 30.0 <= v
  {
    if v < 10.0 then CriticalLow
    else if v < 30.0 then Low
    else Optimal
  }

  /** Negative counts fall into the WARNING band, like one or two pests. */
  function PestStatus(n: int): (s: Status)
    ensures s in {NoPests, PestWarning, PestCritical}
    ensures s == NoPests <==> n == 0
    ensures s == PestWarning <==> n < 0 || 1 <= n <= 2
    ensures s == PestCritical <==> 2 < n
  {
    if n == 0 then NoPests
    else if n <= 2 then PestWarning
    else PestCritical
  }

  /** `evaluateStatuses()`: the six fixed-threshold classifications. */
  function EvaluateStatuses(r: Reading): Statuses {
    Statuses(
      SoilStatus(r.soilHumidity),
      TemperatureStatus(r.temperature),
      AmbientStatus(r.ambientHumidity),
      UvStatus(r.uvLevel),
      WaterStatus(r.waterLevel),
      PestStatus(r.pestCount))
  }

  /** The object invariant: the status fields describe the current readings. */
  predicate Consistent(d: SensorData) {
    d.statuses == Some(EvaluateStatuses(d.reading))
  }

  /** `new SensorData()`: zero readings, no statuses, the clock as timestamp. */
  function NewSensorData(now: Long): (d: SensorData)
    ensures d.statuses.None? && !Consistent(d)
    ensures d.reading == ZeroReading
    ensures d.timestamp == DecimalString(now) && ParseLong(d.timestamp) == Some(now)
  {
    ParseLongOfDecimalString(now);
    SensorData(0, 0, ZeroReading, DecimalString(now), None)
  }

  /** Replace the readings and re-evaluate, as every reading setter does. */
  function WithReading(d: SensorData, r: Reading): SensorData {
    d.(reading := r, statuses := Some(EvaluateStatuses(r)))
  }

  /** The value constructor `SensorData(soil, temp, ambient, uv, water, pests)`. */
  function SensorDataWithValues(r: Reading, now: Long): (d: SensorData)
    ensures Consistent(d)
    ensures d.reading == r && d.id == 0 && d.plantId == 0
    ensures d.timestamp == DecimalString(now) && ParseLong(d.timestamp) == Some(now)
  {
    WithReading(NewSensorData(now), r)
  }

  function SetSoilHumidity(d: SensorData, v: real): (r: SensorData)
    ensures Consistent(r)
    ensures r.(statuses := d.statuses) == d.(reading := d.reading.(soilHumidity := v))
  {
    WithReading(d, d.reading.(soilHumidity := v))
  }

  function SetTemperature(d: SensorData, v: real): (r: SensorData)
    ensures Consistent(r)
    ensures r.(statuses := d.statuses) == d.(reading := d.reading.(temperature := v))
  {
    WithReading(d, d.reading.(temperature := v))
  }

  function SetAmbientHumidity(d: SensorData, v: real): (r: SensorData)
    ensures Consistent(r)
    ensures r.(statuses := d.statuses) == d.(reading := d.reading.(ambientHumidity := v))
  {
    WithReading(d, d.reading.(ambientHumidity := v))
  }

  function SetUvLevel(d: SensorData, v: real): (r: SensorData)
    ensures Consistent(r)
    ensures r.(statuses := d.statuses) == d.(reading := d.reading.(uvLevel := v))
  {
    WithReading(d, d.reading.(uvLevel := v))
  }

  function SetWaterLevel(d: SensorData, v: real): (r: SensorData)
    ensures Consistent(r)
    ensures r.(statuses := d.statuses) == d.(reading := d.reading.(waterLevel := v))
  {
    WithReading(d, d.reading.(waterLevel := v))
  }

  function SetPestCount(d: SensorData, n: int): (r: SensorData)
    ensures Consistent(r)
    ensures r.(statuses := d.statuses) == d.(reading := d.reading.(pestCount := n))
  {
    WithReading(d, d.reading.(pestCount := n))
  }

  /** The setters of `SensorData` as data, so that sequences of calls can be studied. */
  datatype Setter =
    | SetId(id: int)
    | SetPlantId(plantId: int)
    | SetTimestamp(timestamp: string)
    | SetSoil(soil: real)
    | SetTemp(temp: real)
    | SetAmbient(ambient: real)
    | SetUv(uv: real)
    | SetWater(water: real)
    | SetPests(pests: int)
  {
    predicate IsReadingSetter() {
      !(SetId? || SetPlantId? || SetTimestamp?)
    }
  }

  function Apply(d: SensorData, op: Setter): (r: SensorData)
    ensures op.IsReadingSetter() ==> Consistent(r)
    ensures !op.IsReadingSetter() ==> r.statuses == d.statuses && r.reading == d.reading
  {
    match op
    case SetId(i) => d.(id := i)
    case SetPlantId(p) => d.(plantId := p)
    case SetTimestamp(t) => d.(timestamp := t)
    case SetSoil(v) => SetSoilHumidity(d, v)
    case SetTemp(v) => SetTemperature(d, v)
    case SetAmbient(v) => SetAmbientHumidity(d, v)
    case SetUv(v) => SetUvLevel(d, v)
    case SetWater(v) => SetWaterLevel(d, v)
    case SetPests(n) => SetPestCount(d, n)
  }

  function ApplyAll(d: SensorData, ops: seq<Setter>): SensorData
    decreases |ops|
  {
    if |ops| == 0 then d else ApplyAll(Apply(d, ops[0]), ops[1..])
  }

  /**
   * The status invariant holds after any sequence of setter calls that either
   * starts from a consistent object or calls at least one reading setter.
   */
  lemma {:induction false} SettersKeepStatusesConsistent(d: SensorData, ops: seq<Setter>)
    requires Consistent(d) || exists i :: 0 <= i < |ops| && ops[i].IsReadingSetter()
    ensures Consistent(ApplyAll(d, ops))
    decreases |ops|
  {
    if |ops| > 0 {
      var d' := Apply(d, ops[0]);
      if !Consistent(d') {
        var i :| 0 <= i < |ops| && ops[i].IsReadingSetter();
        assert i != 0;
        assert ops[1..][i - 1] == ops[i];
      }
      SettersKeepStatusesConsistent(d', ops[1..]);
    }
  }

  /** `needsPestPrevention()`: red-spider weather or a waterlogged pot. */
  predicate NeedsPestPrevention(r: Reading) {
    (r.ambientHumidity < 35.0 && r.temperature > 30.0) || r.soilHumidity > 70.0
  }

  predicate IsCriticalStatus(s: Status) {
    s == CriticalLow || s == CriticalHigh || s == PestCritical
  }

  predicate AnyCritical(s: Statuses) {
    IsCriticalStatus(s.soil) || IsCriticalStatus(s.temperature) || IsCriticalStatus(s.ambient)
    || IsCriticalStatus(s.uv) || IsCriticalStatus(s.water) || s.pest == PestCritical
  }

  /**
   * The statuses the warning branch lists. Ambient HIGH and UV LOW are not
   * among them.
   */
  predicate AnyListedWarning(s: Statuses) {
    s.soil in {Low, High} || s.temperature in {Low, High} || s.ambient == Low
    || s.uv == High || s.water == Low || s.pest == PestWarning
  }

  lemma CriticalNames(s: Status)
    ensures Contains(s.Name(), "CRITICAL") <==> IsCriticalStatus(s)
  {
    if IsCriticalStatus(s) {
      assert OccursAt(s.Name(), "CRITICAL", 0);
    }
  }

  /**
   * `getOverallAlertLevel()`: tests the status strings with `contains` and
   * `equals`; it needs the status fields to be set (they are `null`, and the
   * call fails, before the first reading setter).
   */
  function OverallAlertLevel(d: SensorData): (level: string)
    requires d.statuses.Some?
    ensures level in {"CRITICAL", "WARNING", "OPTIMAL"}
    ensures level == "CRITICAL" <==> AnyCritical(d.statuses.value)
    ensures level == "WARNING" <==> !AnyCritical(d.statuses.value) && AnyListedWarning(d.statuses.value)
  {
    var s := d.statuses.value;
    CriticalNames(s.soil);
    CriticalNames(s.temperature);
    CriticalNames(s.ambient);
    CriticalNames(s.uv);
    CriticalNames(s.water);
    if Contains(s.soil.Name(), "CRITICAL")
      || Contains(s.temperature.Name(), "CRITICAL")
      || Contains(s.ambient.Name(), "CRITICAL")
      || Contains(s.uv.Name(), "CRITICAL")
      || Contains(s.water.Name(), "CRITICAL")
      || s.pest.Name() == "CRITICAL"
    then "CRITICAL"
    else if s.soil.Name() == "LOW" || s.soil.Name() == "HIGH"
      || s.temperature.Name() == "LOW" || s.temperature.Name() == "HIGH"
      || s.ambient.Name() == "LOW"
      || s.uv.Name() == "HIGH"
      || s.water.Name() == "LOW"
      || s.pest.Name() == "WARNING"
    then "WARNING"
    else "OPTIMAL"
  }

  /**
   * A reading that is fine except for too little UV light, or except for too
   * humid air, is reported as OPTIMAL overall, although its UV (or ambient)
   * status is not OPTIMAL.
   */
  lemma LowUvOrHighAmbientAloneIsOptimal(d: SensorData)
    requires Consistent(d)
    requires 30.0 <= d.reading.soilHumidity <= 60.0
    requires 18.0 <= d.reading.temperature <= 26.0
    requires 40.0 <= d.reading.ambientHumidity
    requires d.reading.uvLevel <= 6.0
    requires 30.0 <= d.reading.waterLevel && d.reading.pestCount == 0
    ensures OverallAlertLevel(d) == "OPTIMAL"
  {
  }

  /** Each fixed-threshold classifier is monotone: a larger value never has a lower rank. */
  lemma StatusesMonotone(a: real, b: real)
    requires a <= b
    ensures SoilStatus(a).Rank() <= SoilStatus(b).Rank()
    ensures TemperatureStatus(a).Rank() <= TemperatureStatus(b).Rank()
    ensures AmbientStatus(a).Rank() <= AmbientStatus(b).Rank()
    ensures UvStatus(a).Rank() <= UvStatus(b).Rank()
    ensures WaterStatus(a).Rank() <= WaterStatus(b).Rank()
  {
  }
}
