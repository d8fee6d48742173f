/**
 * `AlertGenerator`: turns a plant and a device reading into the list of
 * alert records the app stores and notifies, one rule per sensor check,
 * and filters such lists by severity.
 *
 * Each check of `AlertGenerator` creates at most one alert per rule it contains.
 * The model first selects which rules fire (`Rule`, pure threshold logic),
 * then turns the fired rules into `Alert` records with their wording.
 */
module AlertGenerator {
  import opened Nullable
  import opened Numbers
  import opened Seqs
  import opened Alerts
  import opened SensorReadings
  import Plants
  import ArduinoResponses

  const TypeWatering: string := "WATERING"
  const TypeWaterLevel: string := "WATER_LEVEL"
  const TypeTemperature: string := "TEMPERATURE"
  const TypeHumidity: string := "HUMIDITY"
  const TypeLight: string := "LIGHT"
  const TypePest: string := "PEST"

  const SeverityInfo: string := "INFO"
  const SeverityWarning: string := "WARNING"
  const SeverityCritical: string := "CRITICAL"

  const IconWater: string := "💧"
  const IconTemperature: string := "🌡"
  const IconHumidity: string := "💨"
  const IconLight: string := "☀"
  const IconPest: string := "🐛"
  const IconTank: string := "🪣"

  /** The alerts the checks can create, one constructor per `createAlert` call site. */
  datatype Rule =
    | SoilCriticalLow | SoilLow | SoilExcess
    | TemperatureCold | TemperatureLow | TemperatureHeat
    | AirDry
    | TankLow
    | PestsFound
    | RedSpider | Fungus
  {
    /** The check that creates the rule's alert, numbered in the order the checks run. */
    function Check(): nat {
      match this
      case SoilCriticalLow | SoilLow | SoilExcess => 0
      case TemperatureCold | TemperatureLow | TemperatureHeat => 1
      case AirDry => 2
      case TankLow => 3
      case PestsFound => 4
      case RedSpider | Fungus => 5
    }

    function AlertType(): string {
      match this
      case SoilCriticalLow | SoilLow | SoilExcess => TypeWatering
      case TemperatureCold | TemperatureLow | TemperatureHeat => TypeTemperature
      case AirDry => TypeHumidity
      case TankLow => TypeWaterLevel
      case PestsFound | RedSpider | Fungus => TypePest
    }

    function Severity(): string {
      match this
      case SoilLow | TemperatureLow | TankLow | RedSpider | Fungus => SeverityWarning
      case SoilCriticalLow | SoilExcess | TemperatureCold | TemperatureHeat | AirDry | PestsFound => SeverityCritical
    }

    function Title(): string {
      match this
      case SoilCriticalLow => "¡Riego Urgente!"
      case SoilLow => "Humedad Baja"
      case SoilExcess => "¡Exceso de Agua!"
      case TemperatureCold => "¡Peligro de Frío!"
      case TemperatureLow => "Temperatura Baja"
      case TemperatureHeat => "¡Estrés por Calor!"
      case AirDry => "Ambiente Muy Seco"
      case TankLow => "Nivel de Agua Bajo"
      case PestsFound => "¡Plaga Detectada!"
      case RedSpider => "Riesgo de Araña Roja"
      case Fungus => "Riesgo de Hongos"
    }

    function Icon(): string {
      match this
      case SoilCriticalLow | SoilLow | SoilExcess => IconWater
      case TemperatureCold | TemperatureLow | TemperatureHeat => IconTemperature
      case AirDry => IconHumidity
      case TankLow => IconTank
      case PestsFound | RedSpider | Fungus => IconPest
    }
  }

  /** The integer a message shows for a reading: Java's `(int)` cast. */
  function Shown(v: real): string {
    DecimalString(TruncateToInt(v))
  }

  /** The message of a fired rule, with the reading it reports. */
  function Message(rule: Rule, r: Reading): string {
    match rule
    case SoilCriticalLow =>
      "La humedad del suelo es crítica (" + Shown(r.soilHumidity) + "%). Tu planta necesita agua inmediatamente."
    case SoilLow =>
      "La humedad del suelo está por debajo del nivel óptimo (" + Shown(r.soilHumidity) + "%). Considera regar."
    case SoilExcess =>
      "Hay exceso de agua en el suelo (" + Shown(r.soilHumidity)
      + "%). Riesgo de pudrición de raíz. Verifica el drenaje."
    case TemperatureCold =>
      "La temperatura es muy baja (" + Shown(r.temperature) + "°C). Protege tu planta de corrientes frías."
    case TemperatureLow =>
      "La temperatura está bajando (" + Shown(r.temperature)
      + "°C). Considera mover la planta a un lugar más cálido."
    case TemperatureHeat =>
      "La temperatura es muy alta (" + Shown(r.temperature)
      + "°C). Mueve tu planta a un lugar más fresco y aumenta la humedad."
    case AirDry =>
      "La humedad ambiental es muy baja (" + Shown(r.ambientHumidity)
      + "%). Las puntas de las hojas pueden secarse. Pulveriza agua o usa un humidificador."
    case TankLow =>
      "El depósito de agua está casi vacío (" + Shown(r.waterLevel) + "%). Rellénalo pronto."
    case PestsFound =>
      "Se han detectado " + DecimalString(r.pestCount)
      + " posible(s) plaga(s). Revisa tu planta y aplica tratamiento si es necesario."
    case RedSpider =>
      "Las condiciones actuales (baja humedad + alta temperatura) favorecen la aparición de araña roja. "
      + "Aumenta la humedad y revisa el envés de las hojas."
    case Fungus =>
      "El exceso de humedad en el suelo favorece enfermedades fúngicas. "
      + "Verifica el drenaje y asegura buena ventilación."
  }

  /**
   * `createAlert(...)`: an unread alert for the plant, stamped with the clock
   * as decimal milliseconds.
   */
  function CreateAlert(plantId: int, alertType: string, title: string, message: string,
                       severity: string, icon: string, now: Long): (a: Alert)
    ensures a.plantId == plantId && a.id == 0 && !a.isRead
    ensures a.alertType == Some(alertType) && a.severity == Some(severity)
    ensures a.title == Some(title) && a.message == Some(message) && a.iconType == Some(icon)
    ensures a.timestamp == Some(DecimalString(now)) && ParseLong(a.timestamp.value) == Some(now)
  {
    ParseLongOfDecimalString(now);
    EmptyAlert.(plantId := plantId, alertType := Some(alertType), title := Some(title),
                message := Some(message), severity := Some(severity), iconType := Some(icon),
                isRead := false, timestamp := Some(DecimalString(now)))
  }

  /** What every generated alert has in common. */
  predicate Generated(a: Alert, plantId: int, now: Long) {
    && a.plantId == plantId
    && !a.isRead
    && (a.severity == Some(SeverityWarning) || a.severity == Some(SeverityCritical))
    && a.timestamp == Some(DecimalString(now))
  }

  /** Every alert of a batch is generated, alert `i` being stamped by clock read `i`. */
  predicate AllGenerated(alerts: seq<Alert>, plantId: int, clock: Clock) {
    forall i | 0 <= i < |alerts| :: Generated(alerts[i], plantId, clock(i))
  }

  /** The alert one fired rule creates. */
  function RuleAlert(rule: Rule, plantId: int, r: Reading, now: Long): (a: Alert)
    ensures Generated(a, plantId, now)
    ensures a.alertType == Some(rule.AlertType()) && a.severity == Some(rule.Severity())
    ensures a.title == Some(rule.Title()) && a.message == Some(Message(rule, r)) && a.iconType == Some(rule.Icon())
  {
    CreateAlert(plantId, rule.AlertType(), rule.Title(), Message(rule, r), rule.Severity(), rule.Icon(), now)
  }

  /**
   * The alerts of the fired rules, in the same order. Each `createAlert`
   * reads the clock afresh, so alert `i` carries clock read `i`.
   */
  function RuleAlerts(rules: seq<Rule>, plantId: int, r: Reading, clock: Clock): (alerts: seq<Alert>)
    ensures |alerts| == |rules|
    ensures forall i | 0 <= i < |rules| :: alerts[i] == RuleAlert(rules[i], plantId, r, clock(i))
    decreases |rules|
  {
    if |rules| == 0 then []
    else
      var last := |rules| - 1;
      var init := RuleAlerts(rules[..last], plantId, r, clock);
      var alerts := init + [RuleAlert(rules[last], plantId, r, clock(last))];
      SnocPointwise(init, RuleAlert(rules[last], plantId, r, clock(last)), rules,
                    (rule, i) => RuleAlert(rule, plantId, r, clock(i)));
      alerts
  }

  /** 1 when the rule fires, 0 otherwise. */
  function Ind(b: bool): nat {
    if b then 1 else 0
  }

  predicate AllOfCheck(rules: seq<Rule>, check: nat) {
    forall i | 0 <= i < |rules| :: rules[i].Check() == check
  }

  /**
   * `checkSoilHumidity`: at most one WATERING alert, critical below 15 % or
   * (at or above the minimum) above 70 %, a warning below the minimum; none
   * for max < v <= 70.
   */
  function CheckSoilHumidity(p: Plants.Plant, r: Reading): (fired: seq<Rule>)
    ensures AllOfCheck(fired, 0)
    ensures |fired| == Ind(r.soilHumidity < p.soilHumidityMin || r.soilHumidity < 15.0 || 70.0 < r.soilHumidity)
    ensures |fired| == 1 ==>
      (fired[0].Severity() == SeverityCritical <==>
        r.soilHumidity < 15.0 || (p.soilHumidityMin <= r.soilHumidity && 70.0 < r.soilHumidity))
  {
    var v := r.soilHumidity;
    if v < 15.0 then [SoilCriticalLow]
    else if v < p.soilHumidityMin then [SoilLow]
    else if v > 70.0 then [SoilExcess]
    else []
  }

  /**
   * `checkTemperature`: at most one TEMPERATURE alert, critical below 10 °C or
   * (at or above the minimum) above 30 °C, a warning below the minimum; none
   * for max < t <= 30.
   */
  function CheckTemperature(p: Plants.Plant, r: Reading): (fired: seq<Rule>)
    ensures AllOfCheck(fired, 1)
    ensures |fired| == Ind(r.temperature < p.tempMin || r.temperature < 10.0 || 30.0 < r.temperature)
    ensures |fired| == 1 ==>
      (fired[0].Severity() == SeverityCritical <==>
        r.temperature < 10.0 || (p.tempMin <= r.temperature && 30.0 < r.temperature))
  {
    var t := r.temperature;
    if t < 10.0 then [TemperatureCold]
    else if t < p.tempMin then [TemperatureLow]
    else if t > 30.0 then [TemperatureHeat]
    else []
  }

  /** `checkAmbientHumidity`: one CRITICAL HUMIDITY alert exactly when the air is below 35 %. */
  function CheckAmbientHumidity(r: Reading): (fired: seq<Rule>)
    ensures AllOfCheck(fired, 2)
    ensures |fired| == Ind(r.ambientHumidity < 35.0)
    ensures |fired| == 1 ==> fired[0].Severity() == SeverityCritical
  {
    if r.ambientHumidity < 35.0 then [AirDry] else []
  }

  /** `checkWaterLevel`: one WARNING WATER_LEVEL alert exactly when the tank is below 20 %. */
  function CheckWaterLevel(r: Reading): (fired: seq<Rule>)
    ensures AllOfCheck(fired, 3)
    ensures |fired| == Ind(r.waterLevel < 20.0)
    ensures |fired| == 1 ==> fired[0].Severity() == SeverityWarning
  {
    if r.waterLevel < 20.0 then [TankLow] else []
  }

  /** `checkPests`: one CRITICAL PEST alert exactly when a pest was counted. */
  function CheckPests(r: Reading): (fired: seq<Rule>)
    ensures AllOfCheck(fired, 4)
    ensures |fired| == Ind(r.pestCount > 0)
    ensures |fired| == 1 ==> fired[0].Severity() == SeverityCritical && fired[0].AlertType() == TypePest
  {
    if r.pestCount > 0 then [PestsFound] else []
  }

  /**
   * `checkPestConditions`: independent of the plant, a red-spider WARNING for
   * dry hot air and then a fungus WARNING for waterlogged soil.
   */
  function CheckPestConditions(r: Reading): (fired: seq<Rule>)
    ensures AllOfCheck(fired, 5)
    ensures forall i | 0 <= i < |fired| :: fired[i].Severity() == SeverityWarning && fired[i].AlertType() == TypePest
    ensures |fired| == Ind(r.ambientHumidity < 35.0 && r.temperature > 30.0) + Ind(r.soilHumidity > 70.0)
    ensures RedSpider in fired <==> r.ambientHumidity < 35.0 && r.temperature > 30.0
    ensures Fungus in fired <==> r.soilHumidity > 70.0
  {
    (if r.ambientHumidity < 35.0 && r.temperature > 30.0 then [RedSpider] else [])
    + (if r.soilHumidity > 70.0 then [Fungus] else [])
  }

  /** Check numbers never decrease along the list, and none is below `k`. */
  predicate InCheckOrderFrom(rules: seq<Rule>, k: nat) {
    && (forall i | 0 <= i < |rules| :: k <= rules[i].Check())
    && (forall i, j | 0 <= i < j < |rules| :: rules[i].Check() <= rules[j].Check())
  }

  lemma PrependCheck(a: seq<Rule>, b: seq<Rule>, k: nat, k': nat)
    requires AllOfCheck(a, k) && InCheckOrderFrom(b, k) && k' <= k
    ensures InCheckOrderFrom(a + b, k')
  {
    forall i | 0 <= i < |a + b|
      ensures (a + b)[i].Check() == if i < |a| then k else b[i - |a|].Check()
    {
      if i >= |a| {
        assert (a + b)[i] == b[i - |a|];
      }
    }
  }

  /** The rules that fire for a reading, in the order `generateAlerts` runs the checks. */
  function FiredRules(p: Plants.Plant, r: Reading): (fired: seq<Rule>)
    ensures |fired| <= 7
    ensures |fired| ==
      Ind(r.soilHumidity < p.soilHumidityMin || r.soilHumidity < 15.0 || 70.0 < r.soilHumidity)
      + Ind(r.temperature < p.tempMin || r.temperature < 10.0 || 30.0 < r.temperature)
      + Ind(r.ambientHumidity < 35.0) + Ind(r.waterLevel < 20.0) + Ind(r.pestCount > 0)
      + Ind(r.ambientHumidity < 35.0 && r.temperature > 30.0) + Ind(r.soilHumidity > 70.0)
  {
    CheckSoilHumidity(p, r) + (CheckTemperature(p, r) + (CheckAmbientHumidity(r)
      + (CheckWaterLevel(r) + (CheckPests(r) + CheckPestConditions(r)))))
  }

  /** The fired rules come out grouped by check, in the order the checks run. */
  lemma FiredRulesInCheckOrder(p: Plants.Plant, r: Reading)
    ensures forall i, j | 0 <= i < j < |FiredRules(p, r)| :: FiredRules(p, r)[i].Check() <= FiredRules(p, r)[j].Check()
  {
    var soil := CheckSoilHumidity(p, r);
    var temp := CheckTemperature(p, r);
    var ambient := CheckAmbientHumidity(r);
    var water := CheckWaterLevel(r);
    var pests := CheckPests(r);
    var conditions := CheckPestConditions(r);
    assert InCheckOrderFrom(conditions, 4);
    PrependCheck(pests, conditions, 4, 3);
    PrependCheck(water, pests + conditions, 3, 2);
    PrependCheck(ambient, water + (pests + conditions), 2, 1);
    PrependCheck(temp, ambient + (water + (pests + conditions)), 1, 0);
    PrependCheck(soil, temp + (ambient + (water + (pests + conditions))), 0, 0);
  }

  /**
   * `generateAlerts(plant, data)`: nothing when either argument is `null`;
   * otherwise one alert per fired rule, in the order the checks run, with
   * the rule's type, title, message, severity and icon. Every alert belongs
   * to the plant, is unread and is a WARNING or CRITICAL, and at most seven
   * come out. Alert `i` is stamped with clock read `i`.
   */
  function GenerateAlerts(plant: Option<Plants.Plant>, data: Option<ArduinoResponses.ArduinoResponse>,
                          clock: Clock): (alerts: seq<Alert>)
    ensures plant.None? || data.None? ==> alerts == []
    ensures plant.Some? ==> AllGenerated(alerts, plant.value.id, clock)
    ensures |alerts| <= 7
    ensures plant.Some? && data.Some? ==>
      var fired := FiredRules(plant.value, data.value.reading);
      && |alerts| == |fired|
      && forall i | 0 <= i < |alerts| ::
        && alerts[i].alertType == Some(fired[i].AlertType())
        && alerts[i].severity == Some(fired[i].Severity())
        && alerts[i].title == Some(fired[i].Title())
        && alerts[i].message == Some(Message(fired[i], data.value.reading))
        && alerts[i].iconType == Some(fired[i].Icon())
        && alerts[i].timestamp == Some(DecimalString(clock(i)))
  {
    if plant.None? || data.None? then []
    else RuleAlerts(FiredRules(plant.value, data.value.reading), plant.value.id, data.value.reading, clock)
  }

  /**
   * The position of an alert type in the order the checks run: watering,
   * temperature, air humidity, tank, pests.
   */
  function TypeRank(alertType: Option<string>): nat {
    if alertType == Some(TypeWatering) then 0
    else if alertType == Some(TypeTemperature) then 1
    else if alertType == Some(TypeHumidity) then 2
    else if alertType == Some(TypeWaterLevel) then 3
    else if alertType == Some(TypePest) then 4
    else 5
  }

  /** A rule's alert type ranks with its check; the last two checks share PEST. */
  lemma RankOfRule(rule: Rule)
    ensures TypeRank(Some(rule.AlertType())) == if rule.Check() < 4 then rule.Check() else 4
  {
    match rule
    case SoilCriticalLow | SoilLow | SoilExcess =>
    case TemperatureCold | TemperatureLow | TemperatureHeat =>
      assert TypeTemperature != TypeWatering;
    case AirDry =>
      assert TypeHumidity != TypeWatering;
      assert TypeHumidity != TypeTemperature;
    case TankLow =>
      assert TypeWaterLevel != TypeWatering;
      assert TypeWaterLevel != TypeTemperature;
      assert TypeWaterLevel != TypeHumidity;
    case PestsFound | RedSpider | Fungus =>
      assert TypePest != TypeWatering;
      assert TypePest != TypeTemperature;
      assert TypePest != TypeHumidity;
      assert TypePest != TypeWaterLevel;
  }

  /** The alerts come out grouped by type, in the order the checks run. */
  lemma GeneratedAlertsInCheckOrder(p: Plants.Plant, data: ArduinoResponses.ArduinoResponse, clock: Clock)
    ensures var alerts := GenerateAlerts(Some(p), Some(data), clock);
      forall i, j | 0 <= i < j < |alerts| :: TypeRank(alerts[i].alertType) <= TypeRank(alerts[j].alertType)
  {
    var alerts := GenerateAlerts(Some(p), Some(data), clock);
    var fired := FiredRules(p, data.reading);
    FiredRulesInCheckOrder(p, data.reading);
    forall i, j | 0 <= i < j < |alerts| ensures TypeRank(alerts[i].alertType) <= TypeRank(alerts[j].alertType) {
      RankOfRule(fired[i]);
      RankOfRule(fired[j]);
    }
  }

  /** Seven alerts do come out: the bound of `generateAlerts` is reached. */
  lemma SevenAlertsReachable(now: Long, clock: Clock)
    ensures |GenerateAlerts(Some(Plants.NewPlant(None, None, None)),
                            Some(ArduinoResponses.FullResponse(Reading(80.0, 35.0, 20.0, 5.0, 5.0, 3), now)),
                            clock)| == 7
  {
    var p := Plants.NewPlant(None, None, None);
    assert p.soilHumidityMin == 30.0 && p.tempMin == 18.0;
    var fired := FiredRules(p, Reading(80.0, 35.0, 20.0, 5.0, 5.0, 3));
    assert |fired| == 7;
  }

  /**
   * `filterBySeverity(alerts, severity)`: the alerts whose severity equals
   * `severity`, in their original order. The Java code calls `equals` on each
   * alert's severity, so every severity must be set.
   */
  function FilterBySeverity(alerts: seq<Alert>, severity: string): (r: seq<Alert>)
    requires forall i | 0 <= i < |alerts| :: alerts[i].severity.Some?
    ensures forall i | 0 <= i < |r| :: r[i].severity == Some(severity)
    ensures forall a | a in alerts :: a in r <==> a.severity == Some(severity)
    ensures IsSubsequence(r, alerts)
    ensures |r| == CountSeverity(alerts, severity)
    decreases |alerts|
  {
    if |alerts| == 0 then []
    else
      var rest := FilterBySeverity(alerts[1..], severity);
      if alerts[0].severity == Some(severity) then
        assert ([alerts[0]] + rest)[1..] == rest;
        [alerts[0]] + rest
      else
        rest
  }

  /** `getCriticalAlerts`: the CRITICAL alerts, in order. */
  function GetCriticalAlerts(alerts: seq<Alert>): (r: seq<Alert>)
    requires forall i | 0 <= i < |alerts| :: alerts[i].severity.Some?
    ensures IsSubsequence(r, alerts)
    ensures |r| == CountSeverity(alerts, SeverityCritical)
    ensures forall a | a in alerts :: a in r <==> a.severity == Some(SeverityCritical)
  {
    FilterBySeverity(alerts, SeverityCritical)
  }

  /** `hasCriticalAlerts`: some alert in the list is CRITICAL. */
  function HasCriticalAlerts(alerts: seq<Alert>): (b: bool)
    requires forall i | 0 <= i < |alerts| :: alerts[i].severity.Some?
    ensures b <==> exists i | 0 <= i < |alerts| :: alerts[i].severity == Some(SeverityCritical)
  {
    CountSeverityPositive(alerts, SeverityCritical);
    |GetCriticalAlerts(alerts)| > 0
  }

  /** Filtering twice by the same severity changes nothing the second time. */
  lemma {:induction false} FilterIdempotent(alerts: seq<Alert>, severity: string)
    requires forall i | 0 <= i < |alerts| :: alerts[i].severity.Some?
    ensures FilterBySeverity(FilterBySeverity(alerts, severity), severity) == FilterBySeverity(alerts, severity)
    decreases |alerts|
  {
    if |alerts| > 0 {
      FilterIdempotent(alerts[1..], severity);
      var rest := FilterBySeverity(alerts[1..], severity);
      if alerts[0].severity == Some(severity) {
        assert ([alerts[0]] + rest)[1..] == rest;
      }
    }
  }

  /** Filtering distributes over concatenation. */
  lemma {:induction false} FilterAppend(a: seq<Alert>, b: seq<Alert>, severity: string)
    requires forall i | 0 <= i < |a| :: a[i].severity.Some?
    requires forall i | 0 <= i < |b| :: b[i].severity.Some?
    ensures FilterBySeverity(a + b, severity) == FilterBySeverity(a, severity) + FilterBySeverity(b, severity)
    decreases |a|
  {
    if |a| == 0 {
      assert a + b == b;
    } else {
      assert (a + b)[0] == a[0];
      assert (a + b)[1..] == a[1..] + b;
      FilterAppend(a[1..], b, severity);
      var fa := FilterBySeverity(a[1..], severity);
      var fb := FilterBySeverity(b, severity);
      if a[0].severity == Some(severity) {
        assert [a[0]] + (fa + fb) == ([a[0]] + fa) + fb;
      }
    }
  }
}
