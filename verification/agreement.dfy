/**
 * How the two rule sets of the app relate: the alert rules of
 * `AlertGenerator` and the status rules of `SensorStatusHelper`, both
 * applied to the same plant and reading. They share their fixed bounds but
 * not always their verdicts. The notification maps then decide how each
 * generated alert is posted.
 */
module Agreement {
  import opened Nullable
  import opened Numbers
  import ArduinoResponses
  import opened Alerts
  import opened SensorReadings
  import Plants
  import opened AlertGenerator
  import opened SensorStatusHelper
  import NotificationHelper

  /**
   * A soil alert carries the severity of the soil status whenever it is
   * raised. No alert is raised exactly when the status is OPTIMAL or is the
   * "too wet for this plant" WARNING (above the maximum but at most 70 %).
   */
  lemma SoilAlertFollowsSoilStatus(p: Plants.Plant, r: Reading)
    ensures var fired := CheckSoilHumidity(p, r);
      var s := EvaluateSoilHumidity(p, r.soilHumidity);
      && (|fired| == 1 ==> fired[0].Severity() == s.status.Name())
      && (|fired| == 0 <==>
            s.status == Level.Optimal
            || (s.status == Level.Warning && p.soilHumidityMin <= r.soilHumidity && p.soilHumidityMax < r.soilHumidity))
  {
  }

  /**
   * The same holds for temperature: a raised alert carries the status's
   * severity, and the "too warm for this plant" WARNING (above the maximum
   * but at most 30 °C) raises none.
   */
  lemma TemperatureAlertFollowsTemperatureStatus(p: Plants.Plant, r: Reading)
    ensures var fired := CheckTemperature(p, r);
      var s := EvaluateTemperature(p, r.temperature);
      && (|fired| == 1 ==> fired[0].Severity() == s.status.Name())
      && (|fired| == 0 <==>
            s.status == Level.Optimal
            || (s.status == Level.Warning && p.tempMin <= r.temperature && p.tempMax < r.temperature))
  {
  }

  /**
   * Dry air raises its alert exactly when the status is CRITICAL, with the
   * same severity; the WARNING bands raise nothing.
   */
  lemma AmbientAlertOnlyWhenCritical(p: Plants.Plant, r: Reading)
    ensures var fired := CheckAmbientHumidity(r);
      var s := EvaluateAmbientHumidity(p, r.ambientHumidity);
      && (|fired| == 1 <==> s.status == Level.Critical)
      && (|fired| == 1 ==> fired[0].Severity() == s.status.Name())
  {
  }

  /**
   * A low tank raises its alert exactly when the status is CRITICAL, yet
   * the alert is only a WARNING.
   */
  lemma TankAlertIsMilderThanTankStatus(r: Reading)
    ensures var fired := CheckWaterLevel(r);
      var s := EvaluateWaterLevel(r.waterLevel);
      && (|fired| == 1 <==> s.status == Level.Critical)
      && (|fired| == 1 ==> fired[0].Severity() == SeverityWarning && s.status.Name() == SeverityCritical)
  {
  }

  /**
   * Any counted pest raises a CRITICAL alert, while the status is only a
   * WARNING for one to five pests: the two disagree on exactly those counts.
   */
  lemma PestAlertIsHarsherThanPestStatus(r: Reading)
    ensures var fired := CheckPests(r);
      var s := EvaluatePests(r.pestCount);
      && (|fired| == 1 <==> s.status != Level.Optimal)
      && (|fired| == 1 ==> (fired[0].Severity() == s.status.Name() <==> r.pestCount > 5))
  {
  }

  /** The prevention check raises something exactly when the reading needs pest prevention. */
  lemma PreventionAlertsIffNeeded(r: Reading)
    ensures |CheckPestConditions(r)| > 0 <==> NeedsPestPrevention(r)
  {
    if r.soilHumidity > 70.0 {
      assert Fungus in CheckPestConditions(r);
    }
  }

  /**
   * How a generated alert is posted: never in the information channel and
   * never at low priority, since every rule is a WARNING or CRITICAL; with
   * the alert icon exactly for the temperature and pest rules; and in the
   * colour of the status level of the same name.
   */
  lemma GeneratedAlertsArePostedAsAlerts(rule: Rule)
    ensures NotificationHelper.ChannelIdForSeverity(rule.Severity()) != NotificationHelper.ChannelInfo
    ensures NotificationHelper.PriorityForSeverity(rule.Severity()) >= NotificationHelper.PriorityDefault
    ensures NotificationHelper.IconForAlertType(rule.AlertType()) == NotificationHelper.DialogAlert <==>
      rule.Check() == 1 || rule.Check() == 4 || rule.Check() == 5
    ensures NotificationHelper.ColorForSeverity(rule.Severity()) ==
      ColorOf(if rule.Severity() == SeverityCritical then Level.Critical else Level.Warning)
  {
  }

  /**
   * The same for a whole batch: every alert `generateAlerts` returns goes to
   * the critical or the warning channel.
   */
  lemma GeneratedBatchAvoidsInfoChannel(p: Plants.Plant, data: Option<ArduinoResponses.ArduinoResponse>, clock: Clock)
    ensures forall a | a in GenerateAlerts(Some(p), data, clock) ::
      a.severity.Some? && NotificationHelper.ChannelIdForSeverity(a.severity.value) != NotificationHelper.ChannelInfo
  {
    var alerts := GenerateAlerts(Some(p), data, clock);
    forall a | a in alerts
      ensures a.severity.Some? && NotificationHelper.ChannelIdForSeverity(a.severity.value) != NotificationHelper.ChannelInfo
    {
      var i :| 0 <= i < |alerts| && alerts[i] == a;
      assert Generated(alerts[i], p.id, clock(i));
    }
  }
}
