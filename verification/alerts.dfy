/**
 * The `Alert` record shared by the alert generator, the notification maps
 * and the alerts table, and the sequence facts used about lists of alerts.
 */
module Alerts {
  import opened Nullable
  import opened Seqs

  /** An alert; every text field is nullable, as the alerts table's columns are. */
  datatype Alert = Alert(
    id: int,
    plantId: int,
    alertType: Option<string>,
    title: Option<string>,
    message: Option<string>,
    severity: Option<string>,
    isRead: bool,
    iconType: Option<string>,
    timestamp: Option<string>)

  /**
   * The severity names the `Alert` class itself declares, in lower case;
   * the alert generator and the notification maps use upper-case names.
   */
  const LowerCaseInfo: string := "info"
  const LowerCaseWarning: string := "warning"
  const LowerCaseCritical: string := "critical"

  /** `new Alert()`: no id, no plant, every text `null`, unread. */
  const EmptyAlert: Alert := Alert(0, 0, None, None, None, None, false, None, None)

  /** The number of alerts whose severity is `severity`. */
  function CountSeverity(alerts: seq<Alert>, severity: string): nat
    decreases |alerts|
  {
    if |alerts| == 0 then 0
    else (if alerts[0].severity == Some(severity) then 1 else 0) + CountSeverity(alerts[1..], severity)
  }

  lemma {:induction false} CountSeverityAppend(a: seq<Alert>, b: seq<Alert>, severity: string)
    ensures CountSeverity(a + b, severity) == CountSeverity(a, severity) + CountSeverity(b, severity)
    decreases |a|
  {
    if |a| > 0 {
      assert (a + b)[1..] == a[1..] + b;
      CountSeverityAppend(a[1..], b, severity);
    } else {
      assert a + b == b;
    }
  }

  lemma {:induction false} CountSeverityPositive(alerts: seq<Alert>, severity: string)
    ensures CountSeverity(alerts, severity) > 0 <==>
      exists i | 0 <= i < |alerts| :: alerts[i].severity == Some(severity)
    decreases |alerts|
  {
    if |alerts| > 0 {
      CountSeverityPositive(alerts[1..], severity);
      if exists i | 0 <= i < |alerts| :: alerts[i].severity == Some(severity) {
        var i :| 0 <= i < |alerts| && alerts[i].severity == Some(severity);
        if i > 0 {
          assert alerts[1..][i - 1] == alerts[i];
        }
      }
      if exists i | 0 <= i < |alerts[1..]| :: alerts[1..][i].severity == Some(severity) {
        var i :| 0 <= i < |alerts[1..]| && alerts[1..][i].severity == Some(severity);
        assert alerts[i + 1] == alerts[1..][i];
      }
    }
  }
}
