/**
 * The pure choices of `NotificationHelper`: which channel, priority, colour
 * and icon an alert's notification gets, and the text of the summary
 * notification. Building and posting notifications is not modelled.
 */
module NotificationHelper {
  import opened Numbers
  import opened Text
  import opened Alerts
  import AlertGenerator
  import SensorStatusHelper

  const ChannelCritical: string := "masetero_critical"
  const ChannelWarning: string := "masetero_warning"
  const ChannelInfo: string := "masetero_info"

  /** `NotificationCompat.PRIORITY_HIGH`, `PRIORITY_DEFAULT` and `PRIORITY_LOW`. */
  const PriorityHigh: int := 1
  const PriorityDefault: int := 0
  const PriorityLow: int := -1

  /** The two platform drawables the helper uses as small icons. */
  datatype Icon = DialogAlert | DialogInfo

  /**
   * `getChannelIdForSeverity`: a `switch` on the exact, case-sensitive
   * severity text; everything but "CRITICAL" and "WARNING" is information.
   */
  function ChannelIdForSeverity(severity: string): (channel: string)
    ensures channel == ChannelCritical <==> severity == AlertGenerator.SeverityCritical
    ensures channel == ChannelWarning <==> severity == AlertGenerator.SeverityWarning
    ensures channel == ChannelInfo <==>
      severity != AlertGenerator.SeverityCritical && severity != AlertGenerator.SeverityWarning
  {
    match severity
    case "CRITICAL" => ChannelCritical
    case "WARNING" => ChannelWarning
    case _ => ChannelInfo
  }

  /** `getPriorityForSeverity`: high, default or low, by the same cases. */
  function PriorityForSeverity(severity: string): (priority: int)
    ensures priority == PriorityHigh <==> severity == AlertGenerator.SeverityCritical
    ensures priority == PriorityDefault <==> severity == AlertGenerator.SeverityWarning
    ensures priority == PriorityLow <==>
      severity != AlertGenerator.SeverityCritical && severity != AlertGenerator.SeverityWarning
  {
    match severity
    case "CRITICAL" => PriorityHigh
    case "WARNING" => PriorityDefault
    case _ => PriorityLow
  }

  /** `getColorForSeverity`: red, amber or green, written as Java `int` literals. */
  function ColorForSeverity(severity: string): (color: int)
    ensures MinInt <= color < 0
    ensures color == WrapInt(0xFFF4_4336) <==> severity == AlertGenerator.SeverityCritical
    ensures color == WrapInt(0xFFFF_C107) <==> severity == AlertGenerator.SeverityWarning
    ensures color == WrapInt(0xFF4C_AF50) <==>
      severity != AlertGenerator.SeverityCritical && severity != AlertGenerator.SeverityWarning
  {
    match severity
    case "CRITICAL" => WrapInt(0xFFF4_4336)
    case "WARNING" => WrapInt(0xFFFF_C107)
    case _ => WrapInt(0xFF4C_AF50)
  }

  /**
   * The three maps split severities into the same three classes: two
   * severities share a channel exactly when they share a priority, and
   * exactly when they share a colour. A more severe class never gets a
   * lower priority.
   */
  lemma MapsPartitionAlike(a: string, b: string)
    ensures ChannelIdForSeverity(a) == ChannelIdForSeverity(b) <==>
      PriorityForSeverity(a) == PriorityForSeverity(b)
    ensures PriorityForSeverity(a) == PriorityForSeverity(b) <==>
      ColorForSeverity(a) == ColorForSeverity(b)
    ensures PriorityForSeverity(AlertGenerator.SeverityCritical) > PriorityForSeverity(AlertGenerator.SeverityWarning) > PriorityForSeverity(a) ||
      a == AlertGenerator.SeverityCritical || a == AlertGenerator.SeverityWarning
  {
  }

  /**
   * The notification colours are the status colours of the sensor screen:
   * each level's name, used as a severity, gets that level's colour.
   */
  lemma ColorsMatchStatusColors(l: SensorStatusHelper.Level)
    ensures ColorForSeverity(l.Name()) == SensorStatusHelper.ColorOf(l)
    ensures ColorForSeverity(AlertGenerator.SeverityInfo) == SensorStatusHelper.ColorGreen
  {
  }

  /**
   * Matching is case-sensitive, so the lower-case severities declared on the
   * `Alert` class all land in the information channel, at low priority, in
   * green.
   */
  lemma LowerCaseSeveritiesAreInformation(severity: string)
    requires severity in {LowerCaseInfo, LowerCaseWarning, LowerCaseCritical}
    ensures ChannelIdForSeverity(severity) == ChannelInfo
    ensures PriorityForSeverity(severity) == PriorityLow
    ensures ColorForSeverity(severity) == SensorStatusHelper.ColorGreen
  {
  }

  /**
   * `getIconForAlertType`: total over all type names; temperature and pest
   * alerts get the alert icon, every other type, known or not, the
   * information icon.
   */
  function IconForAlertType(alertType: string): (icon: Icon)
    ensures icon == DialogAlert <==>
      alertType == AlertGenerator.TypeTemperature || alertType == AlertGenerator.TypePest
  {
    match alertType
    case "WATERING" => DialogInfo
    case "TEMPERATURE" => DialogAlert
    case "HUMIDITY" => DialogInfo
    case "LIGHT" => DialogInfo
    case "PEST" => DialogAlert
    case "WATER_LEVEL" => DialogInfo
    case _ => DialogInfo
  }

  /** Which of the three texts the summary notification shows. */
  datatype SummaryKind = CriticalAndWarnings | CriticalOnly | WarningsOnly

  /**
   * The summary text's case: both counts only when both are positive, the
   * critical-only text when only the critical count is, and the warnings
   * text otherwise, even when both counts are zero or negative.
   */
  function SummaryKindFor(criticalCount: int, warningCount: int): (k: SummaryKind)
    ensures k == CriticalAndWarnings <==> criticalCount > 0 && warningCount > 0
    ensures k == CriticalOnly <==> criticalCount > 0 && warningCount <= 0
    ensures k == WarningsOnly <==> criticalCount <= 0
  {
    if criticalCount > 0 && warningCount > 0 then CriticalAndWarnings
    else if criticalCount > 0 then CriticalOnly
    else WarningsOnly
  }

  const CriticalWords: string := " alertas críticas"
  const WarningWords: string := " advertencias"

  /**
   * The summary notification's text (`String.format` with `%d`): it starts
   * with the critical count whenever that is positive, otherwise with the
   * warning count, and ends in "advertencias" unless the warnings were left
   * out.
   */
  function SummaryMessage(criticalCount: int, warningCount: int): (m: string)
    ensures criticalCount > 0 ==> StartsWith(m, DecimalString(criticalCount) + CriticalWords)
    ensures criticalCount <= 0 ==> StartsWith(m, DecimalString(warningCount) + WarningWords)
    ensures EndsWith(m, WarningWords) <==> SummaryKindFor(criticalCount, warningCount) != CriticalOnly
    ensures SummaryKindFor(criticalCount, warningCount) == CriticalAndWarnings ==>
      EndsWith(m, DecimalString(warningCount) + WarningWords)
  {
    match SummaryKindFor(criticalCount, warningCount)
    case CriticalAndWarnings =>
      var m := DecimalString(criticalCount) + " alertas críticas y " + DecimalString(warningCount) + " advertencias";
      assert m == (DecimalString(criticalCount) + CriticalWords) + " y " + (DecimalString(warningCount) + WarningWords);
      m
    case CriticalOnly =>
      var m := DecimalString(criticalCount) + " alertas críticas";
      assert m[|m| - |WarningWords|..] != WarningWords by {
        assert m[|m| - 3] == 'c' && WarningWords[|WarningWords| - 3] == 'i';
      }
      m
    case WarningsOnly =>
      DecimalString(warningCount) + " advertencias"
  }

  /** The summary notification's fixed channel, priority and icon. */
  const SummaryChannel: string := ChannelCritical
  const SummaryPriority: int := PriorityHigh
  const SummaryIcon: Icon := DialogAlert

  /**
   * The summary always goes to the critical channel at high priority, even
   * when it reports only warnings, which on their own would go to the
   * warning channel at default priority.
   */
  lemma WarningsOnlySummaryOutranksItsAlerts(warningCount: int)
    ensures SummaryKindFor(0, warningCount) == WarningsOnly
    ensures SummaryChannel != ChannelIdForSeverity(AlertGenerator.SeverityWarning)
    ensures SummaryPriority > PriorityForSeverity(AlertGenerator.SeverityWarning)
  {
  }
}
