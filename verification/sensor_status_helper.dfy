/**
 * `SensorStatusHelper`: the per-sensor first-match classifiers the plant
 * dashboard shows, each returning a (status, message, colour) triple, and
 * the overall verdict that counts critical and warning results.
 */
module SensorStatusHelper {
  import opened Numbers
  import Plants
  import SensorReadings

  /**
   * The three status strings `OPTIMAL`, `WARNING` and `CRITICAL`; every
   * `SensorStatus` the helper builds carries one of them.
   */
  datatype Level = Optimal | Warning | Critical {
    function Name(): string {
      match this
      case Optimal => "OPTIMAL"
      case Warning => "WARNING"
      case Critical => "CRITICAL"
    }

    /** How bad the status is, from 0 (optimal) to 2 (critical). */
    function Severity(): int {
      match this
      case Optimal => 0
      case Warning => 1
      case Critical => 2
    }
  }

  /** The ARGB colour constants, as the (negative) Java `int` values they denote. */
  const ColorGreen: int := WrapInt(0xFF4C_AF50)
  const ColorYellow: int := WrapInt(0xFFFF_C107)
  const ColorRed: int := WrapInt(0xFFF4_4336)

  /** The colour that goes with each status. */
  function ColorOf(l: Level): int {
    match l
    case Optimal => ColorGreen
    case Warning => ColorYellow
    case Critical => ColorRed
  }

  datatype SensorStatus = SensorStatus(status: Level, message: string, color: int) {
    predicate IsOptimal() { status.Name() == "OPTIMAL" }
    predicate IsWarning() { status.Name() == "WARNING" }
    predicate IsCritical() { status.Name() == "CRITICAL" }
  }

  /** The status and the colour of a result agree. */
  predicate ColorAgrees(s: SensorStatus) {
    s.color == ColorOf(s.status)
  }

  /** Distinct statuses have distinct colours, so the colour alone tells the status. */
  lemma ColorsDistinguishStatuses(a: Level, b: Level)
    ensures ColorOf(a) == ColorOf(b) <==> a == b
    ensures ColorGreen < 0 && ColorYellow < 0 && ColorRed < 0
  {
  }

  /** `isOptimal`, `isWarning` and `isCritical` are exclusive and cover every status. */
  lemma StatusTestsPartition(s: SensorStatus)
    ensures s.IsOptimal() <==> s.status == Optimal
    ensures s.IsWarning() <==> s.status == Warning
    ensures s.IsCritical() <==> s.status == Critical
  {
  }

  /** `evaluateSoilHumidity`: <15, <min, >70, >max, else optimal; the first match wins. */
  function EvaluateSoilHumidity(p: Plants.Plant, v: real): (s: SensorStatus)
    ensures ColorAgrees(s)
    ensures s.status == Critical <==> v < 15.0 || (p.soilHumidityMin <= v && 70.0 < v)
    ensures s.status == Warning <==>
      (15.0 <= v < p.soilHumidityMin)
      || (15.0 <= v && p.soilHumidityMin <= v && p.soilHumidityMax < v <= 70.0)
    ensures s.status == Optimal <==> 15.0 <= v <= 70.0 && Plants.IsSoilHumidityOptimal(p, v)
  {
    if v < 15.0 then
      SensorStatus(Critical, "Sequía crítica - ¡Riego urgente!", ColorRed)
    else if v < p.soilHumidityMin then
      SensorStatus(Warning, "Nivel bajo - Considera regar", ColorYellow)
    else if v > 70.0 then
      SensorStatus(Critical, "¡Exceso de agua! Riesgo de pudrición", ColorRed)
    else if v > p.soilHumidityMax then
      SensorStatus(Warning, "Nivel alto - Reduce el riego", ColorYellow)
    else
      SensorStatus(Optimal, "Nivel ideal de humedad", ColorGreen)
  }

  /** `evaluateTemperature`: <10, <min, >30, >max, else optimal; the first match wins. */
  function EvaluateTemperature(p: Plants.Plant, v: real): (s: SensorStatus)
    ensures ColorAgrees(s)
    ensures s.status == Critical <==> v < 10.0 || (p.tempMin <= v && 30.0 < v)
    ensures s.status == Warning <==>
      (10.0 <= v < p.tempMin)
      || (10.0 <= v && p.tempMin <= v && p.tempMax < v <= 30.0)
    ensures s.status == Optimal <==> 10.0 <= v <= 30.0 && Plants.IsTemperatureOptimal(p, v)
  {
    if v < 10.0 then
      SensorStatus(Critical, "¡Peligro de frío extremo!", ColorRed)
    else if v < p.tempMin then
      SensorStatus(Warning, "Temperatura baja - Protege tu planta", ColorYellow)
    else if v > 30.0 then
      SensorStatus(Critical, "¡Estrés por calor! Mueve a lugar fresco", ColorRed)
    else if v > p.tempMax then
      SensorStatus(Warning, "Temperatura alta - Ventila el espacio", ColorYellow)
    else
      SensorStatus(Optimal, "Temperatura ideal", ColorGreen)
  }

  /** `evaluateAmbientHumidity`: critical only below 35; there is no high-critical band. */
  function EvaluateAmbientHumidity(p: Plants.Plant, v: real): (s: SensorStatus)
    ensures ColorAgrees(s)
    ensures s.status == Critical <==> v < 35.0
    ensures s.status == Warning <==>
      (35.0 <= v < p.ambientHumidityMin) || (35.0 <= v && p.ambientHumidityMin <= v && p.ambientHumidityMax < v)
    ensures s.status == Optimal <==> 35.0 <= v && Plants.IsAmbientHumidityOptimal(p, v)
  {
    if v < 35.0 then
      SensorStatus(Critical, "Ambiente muy seco - Aumenta humedad", ColorRed)
    else if v < p.ambientHumidityMin then
      SensorStatus(Warning, "Humedad baja - Pulveriza agua", ColorYellow)
    else if v > p.ambientHumidityMax then
      SensorStatus(Warning, "Humedad alta - Mejora ventilación", ColorYellow)
    else
      SensorStatus(Optimal, "Humedad ambiental ideal", ColorGreen)
  }

  /** `evaluateUvLevel`: independent of the plant; optimal exactly on [3, 6]. */
  function EvaluateUvLevel(v: real): (s: SensorStatus)
    ensures ColorAgrees(s)
    ensures s.status == Critical <==> v < 1.0 || 8.0 < v
    ensures s.status == Warning <==> (1.0 <= v < 3.0) || (6.0 < v <= 8.0)
    ensures s.status == Optimal <==> 3.0 <= v <= 6.0
  {
    if v < 1.0 then
      SensorStatus(Critical, "Muy poca luz - Mueve a lugar luminoso", ColorRed)
    else if v < 3.0 then
      SensorStatus(Warning, "Luz insuficiente - Acerca a ventana", ColorYellow)
    else if v > 8.0 then
      SensorStatus(Critical, "¡Sol directo! Riesgo de quemadura", ColorRed)
    else if v > 6.0 then
      SensorStatus(Warning, "Luz intensa - Considera filtrar sol", ColorYellow)
    else
      SensorStatus(Optimal, "Nivel de luz perfecto", ColorGreen)
  }

  const UvVeryLow: string := "Muy bajo (Sombra)"
  const UvLow: string := "Bajo (Sombra parcial)"
  const UvModerate: string := "Moderado (Luz indirecta)"
  const UvHigh: string := "Alto (Luz brillante)"
  const UvVeryHigh: string := "Muy alto (Sol directo)"

  /** `getUvLevelDescription`: five bands with cut points 1, 3, 6 and 8, each closed below. */
  function UvLevelDescription(v: real): (d: string)
    ensures d == UvVeryLow <==> v < 1.0
    ensures d == UvLow <==> 1.0 <= v < 3.0
    ensures d == UvModerate <==> 3.0 <= v < 6.0
    ensures d == UvHigh <==> 6.0 <= v < 8.0
    ensures d == UvVeryHigh <==> 8.0 <= v
  {
    if v < 1.0 then UvVeryLow
    else if v < 3.0 then UvLow
    else if v < 6.0 then UvModerate
    else if v < 8.0 then UvHigh
    else UvVeryHigh
  }

  /** The status a reader would expect from each description band. */
  function ExpectedUvLevel(d: string): Level {
    if d == UvVeryLow || d == UvVeryHigh then Critical
    else if d == UvModerate then Optimal
    else Warning
  }

  /**
   * The description bands are closed below while the status bands are closed
   * above: the two agree everywhere except at exactly 6 (described "Alto" but
   * OPTIMAL) and exactly 8 (described "Muy alto" but only WARNING).
   */
  lemma UvDescriptionAgreesExceptAtCutPoints(v: real)
    ensures EvaluateUvLevel(v).status == ExpectedUvLevel(UvLevelDescription(v)) <==> v != 6.0 && v != 8.0
  {
  }

  /** `evaluateWaterLevel`: <20 critical, <40 warning, else optimal. */
  function EvaluateWaterLevel(v: real): (s: SensorStatus)
    ensures ColorAgrees(s)
    ensures s.status == Critical <==> v < 20.0
    ensures s.status == Warning <==> 20.0 <= v < 40.0
    ensures s.status == Optimal <==> 40.0 <= v
  {
    if v < 20.0 then
      SensorStatus(Critical, "¡Depósito casi vacío! Rellena ahora", ColorRed)
    else if v < 40.0 then
      SensorStatus(Warning, "Nivel bajo - Rellena pronto", ColorYellow)
    else
      SensorStatus(Optimal, "Nivel de agua adecuado", ColorGreen)
  }

  /** `evaluatePests`: >5 critical, >0 warning, else (including negative counts) optimal. */
  function EvaluatePests(n: int): (s: SensorStatus)
    ensures ColorAgrees(s)
    ensures s.status == Critical <==> 5 < n
    ensures s.status == Warning <==> 1 <= n <= 5
    ensures s.status == Optimal <==> n <= 0
  {
    if n > 5 then
      SensorStatus(Critical, "¡Infestación severa! Trata inmediatamente", ColorRed)
    else if n > 0 then
      SensorStatus(Warning, "Plagas detectadas - Inspecciona tu planta", ColorYellow)
    else
      SensorStatus(Optimal, "Sin plagas detectadas", ColorGreen)
  }

  /**
   * A value below the plant's minimum is only a WARNING even when it is
   * also above the fixed high-critical bound (possible when the minimum is
   * above 70 for soil, or above 30 for temperature).
   */
  lemma LowChecksWin(p: Plants.Plant, soil: real, temp: real)
    requires 15.0 <= soil < p.soilHumidityMin && 10.0 <= temp < p.tempMin
    ensures EvaluateSoilHumidity(p, soil).status == Warning
    ensures EvaluateTemperature(p, temp).status == Warning
  {
  }

  /** More water never gives a worse status, and neither do fewer pests. */
  lemma WaterAndPestsMonotone(a: real, b: real, m: int, n: int)
    requires a <= b && m <= n
    ensures EvaluateWaterLevel(b).status.Severity() <= EvaluateWaterLevel(a).status.Severity()
    ensures EvaluatePests(m).status.Severity() <= EvaluatePests(n).status.Severity()
  {
  }

  /** How many entries of `ls` are `l`. */
  function Count(ls: seq<Level>, l: Level): nat
    decreases |ls|
  {
    if |ls| == 0 then 0 else Count(ls[..|ls| - 1], l) + (if ls[|ls| - 1] == l then 1 else 0)
  }

  lemma {:induction false} CountPositiveIffPresent(ls: seq<Level>, l: Level)
    ensures Count(ls, l) > 0 <==> l in ls
    ensures Count(ls, l) <= |ls|
    decreases |ls|
  {
    if |ls| > 0 {
      var init := ls[..|ls| - 1];
      CountPositiveIffPresent(init, l);
      assert ls == init + [ls[|ls| - 1]];
    }
  }

  /** `Count` is the multiplicity of `l` in `ls`. */
  lemma {:induction false} CountIsMultiplicity(ls: seq<Level>, l: Level)
    ensures Count(ls, l) == multiset(ls)[l]
    decreases |ls|
  {
    if |ls| > 0 {
      var init := ls[..|ls| - 1];
      CountIsMultiplicity(init, l);
      assert ls == init + [ls[|ls| - 1]];
    }
  }

  /**
   * The five statuses `evaluateOverallStatus` counts, in its order: soil,
   * temperature, ambient humidity, UV and pests. The water level is not
   * among them.
   */
  function CountedLevels(p: Plants.Plant, r: SensorReadings.Reading): seq<Level> {
    [ EvaluateSoilHumidity(p, r.soilHumidity).status,
      EvaluateTemperature(p, r.temperature).status,
      EvaluateAmbientHumidity(p, r.ambientHumidity).status,
      EvaluateUvLevel(r.uvLevel).status,
      EvaluatePests(r.pestCount).status ]
  }

  const HealthyMessage: string := "¡Tu planta está saludable! 🌱"

  function UrgentMessage(criticalCount: int): string {
    "¡Tu planta necesita atención urgente! (" + DecimalString(criticalCount) + " problema(s) crítico(s))"
  }

  function AdjustMessage(warningCount: int): string {
    "Tu planta necesita algunos ajustes (" + DecimalString(warningCount) + " advertencia(s))"
  }

  /**
   * The decision of `evaluateOverallStatus` from the counted statuses:
   * CRITICAL when one is critical, WARNING when none is critical and one is
   * a warning, OPTIMAL otherwise; the message reports the number of problems.
   */
  function Verdict(ls: seq<Level>): (s: SensorStatus)
    ensures ColorAgrees(s)
    ensures s.status == Critical <==> Critical in ls
    ensures s.status == Warning <==> Critical !in ls && Warning in ls
    ensures s.status == Optimal <==> forall i | 0 <= i < |ls| :: ls[i] == Optimal
    ensures multiset(ls)[Critical] <= |ls| && multiset(ls)[Warning] <= |ls|
    ensures s.status == Optimal ==> s.message == HealthyMessage
    ensures s.status == Critical ==> s.message == UrgentMessage(multiset(ls)[Critical])
    ensures s.status == Warning ==> s.message == AdjustMessage(multiset(ls)[Warning])
  {
    var criticalCount := Count(ls, Critical);
    var warningCount := Count(ls, Warning);
    CountPositiveIffPresent(ls, Critical);
    CountPositiveIffPresent(ls, Warning);
    CountIsMultiplicity(ls, Critical);
    CountIsMultiplicity(ls, Warning);
    if criticalCount > 0 then
      SensorStatus(Critical, UrgentMessage(criticalCount), ColorRed)
    else if warningCount > 0 then
      SensorStatus(Warning, AdjustMessage(warningCount), ColorYellow)
    else
      SensorStatus(Optimal, HealthyMessage, ColorGreen)
  }

  /** `evaluateOverallStatus(plant, data)`: the verdict over soil, temperature, ambient, UV and pests. */
  function EvaluateOverallStatus(p: Plants.Plant, r: SensorReadings.Reading): (s: SensorStatus)
    ensures ColorAgrees(s)
    ensures s.status == Critical <==> Critical in CountedLevels(p, r)
    ensures s.status == Warning <==> Critical !in CountedLevels(p, r) && Warning in CountedLevels(p, r)
    ensures s.status == Optimal <==> forall i | 0 <= i < 5 :: CountedLevels(p, r)[i] == Optimal
    ensures s.status == Critical ==> s.message == UrgentMessage(multiset(CountedLevels(p, r))[Critical])
    ensures s.status == Warning ==> s.message == AdjustMessage(multiset(CountedLevels(p, r))[Warning])
    ensures s.status == Optimal ==> s.message == HealthyMessage
  {
    Verdict(CountedLevels(p, r))
  }

  /** The tank's water level never changes the overall verdict. */
  lemma OverallStatusIgnoresWater(p: Plants.Plant, r: SensorReadings.Reading, w: real)
    ensures EvaluateOverallStatus(p, r.(waterLevel := w)) == EvaluateOverallStatus(p, r)
  {
  }

  /** An empty tank alone leaves the overall verdict OPTIMAL. */
  lemma EmptyTankAloneIsHealthy(p: Plants.Plant, r: SensorReadings.Reading)
    requires forall i | 0 <= i < 5 :: CountedLevels(p, r)[i] == Optimal
    ensures EvaluateWaterLevel(0.0).status == Critical
    ensures EvaluateOverallStatus(p, r.(waterLevel := 0.0)).status == Optimal
  {
    OverallStatusIgnoresWater(p, r, 0.0);
  }
}
