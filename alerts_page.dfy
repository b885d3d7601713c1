/**
 * src/pages/Alerts.tsx: the system alerts page. Alerts are dismissed one by
 * one or all at once by replacing the list with an updated copy; the page
 * shows the alerts still active and counts them by type.
 */
module AlertsPage {
  import opened Common

  /** The alert kinds: 'error', 'warning' and 'info'. */
  datatype AlertType = ErrorAlert | WarningAlert | InfoAlert

  datatype Alert = Alert(
    id: string,
    alertType: AlertType,
    title: string,
    message: string,
    timestamp: string,
    dismissed: bool)

  /** The page's initial alerts, all active. */
  const MockAlerts: seq<Alert> := [
    Alert("ALT-001", ErrorAlert, "Agent Processing Error",
      "Risk Assessment Agent failed to process claim CLM-2024-157", "2024-01-15T14:45:00Z", false),
    Alert("ALT-002", WarningAlert, "High Volume Alert",
      "Claims volume 25% above normal threshold", "2024-01-15T14:30:00Z", false),
    Alert("ALT-003", InfoAlert, "System Update Complete",
      "Routing Agent updated to version 2.1.3", "2024-01-15T14:15:00Z", false),
    Alert("ALT-004", WarningAlert, "Processing Delay",
      "Average processing time increased by 15% in last hour", "2024-01-15T14:00:00Z", false)
  ]

  /** The alert with its `dismissed` flag set: every other field as it was. */
  function Dismiss(a: Alert): Alert
  {
    a.(dismissed := true)
  }

  /**
   * `dismissAlert(id)`: every alert with that id is dismissed; the list
   * keeps its length and order, and every other alert, and every other
   * field, is left alone.
   */
  function DismissAlert(alerts: seq<Alert>, id: string): (r: seq<Alert>)
    ensures |r| == |alerts|
    ensures forall i :: 0 <= i < |r| ==> r[i].dismissed == (alerts[i].dismissed || alerts[i].id == id)
    ensures forall i :: 0 <= i < |r| ==> r[i].(dismissed := alerts[i].dismissed) == alerts[i]
  {
    seq(|alerts|, i requires 0 <= i < |alerts| => if alerts[i].id == id then Dismiss(alerts[i]) else alerts[i])
  }

  /** `dismissAllAlerts`: every alert dismissed, nothing else changed. */
  function DismissAllAlerts(alerts: seq<Alert>): (r: seq<Alert>)
    ensures |r| == |alerts|
    ensures forall i :: 0 <= i < |r| ==> r[i].dismissed
    ensures forall i :: 0 <= i < |r| ==> r[i].(dismissed := alerts[i].dismissed) == alerts[i]
  {
    seq(|alerts|, i requires 0 <= i < |alerts| => Dismiss(alerts[i]))
  }

  /**
   * `activeAlerts`: the alerts not dismissed, in the list's order: a
   * sub-sequence holding every active alert as often as the list does and
   * no dismissed one.
   */
  function ActiveAlerts(alerts: seq<Alert>): (r: seq<Alert>)
    ensures |r| <= |alerts|
    ensures forall a :: a in r <==> a in alerts && !a.dismissed
    ensures SubList(r, alerts)
    ensures forall a :: multiset(r)[a] == if a.dismissed then 0 else multiset(alerts)[a]
  {
    if alerts == [] then []
    else
      var rest := ActiveAlerts(alerts[1..]);
      assert alerts == [alerts[0]] + alerts[1..];
      if alerts[0].dismissed then rest
      else
        SubListCons(alerts[0], rest, alerts[1..]);
        [alerts[0]] + rest
  }

  /**
   * `alerts.filter(a => a.type === t)`: a sub-sequence holding every
   * alert of type `t` as often as the list does and no other.
   */
  function OfType(alerts: seq<Alert>, t: AlertType): (r: seq<Alert>)
    ensures |r| <= |alerts|
    ensures forall a :: a in r <==> a in alerts && a.alertType == t
    ensures SubList(r, alerts)
    ensures forall a :: multiset(r)[a] == if a.alertType == t then multiset(alerts)[a] else 0
  {
    if alerts == [] then []
    else
      var rest := OfType(alerts[1..], t);
      assert alerts == [alerts[0]] + alerts[1..];
      if alerts[0].alertType == t then
        SubListCons(alerts[0], rest, alerts[1..]);
        [alerts[0]] + rest
      else
        rest
  }

  /** The "N errors, M warnings" line under the active count. */
  function ErrorCount(alerts: seq<Alert>): (n: nat)
    ensures n == |ActiveAlerts(OfType(alerts, ErrorAlert))|
    ensures n <= |ActiveAlerts(alerts)| && n <= |OfType(alerts, ErrorAlert)|
  {
    ActiveOfTypeCommute(alerts, ErrorAlert);
    |OfType(ActiveAlerts(alerts), ErrorAlert)|
  }

  function WarningCount(alerts: seq<Alert>): (n: nat)
    ensures n == |ActiveAlerts(OfType(alerts, WarningAlert))|
    ensures n <= |ActiveAlerts(alerts)| && n <= |OfType(alerts, WarningAlert)|
  {
    ActiveOfTypeCommute(alerts, WarningAlert);
    |OfType(ActiveAlerts(alerts), WarningAlert)|
  }

  /** `alerts` without the alerts carrying `id`: a sub-sequence keeping every other alert as often as the list does. */
  function WithoutId(alerts: seq<Alert>, id: string): (r: seq<Alert>)
    ensures forall a :: a in r <==> a in alerts && a.id != id
    ensures SubList(r, alerts)
    ensures forall a :: multiset(r)[a] == if a.id == id then 0 else multiset(alerts)[a]
  {
    if alerts == [] then []
    else
      var rest := WithoutId(alerts[1..], id);
      assert alerts == [alerts[0]] + alerts[1..];
      if alerts[0].id == id then
        rest
      else
        SubListCons(alerts[0], rest, alerts[1..]);
        [alerts[0]] + rest
  }

  // ------------------------------------------------------------ properties

  /** Dismissing twice is dismissing once. */
  lemma DismissIdempotent(alerts: seq<Alert>, id: string)
    ensures DismissAlert(DismissAlert(alerts, id), id) == DismissAlert(alerts, id)
  {
  }

  /** Dismissing an id whose alerts are all dismissed already (or absent) changes nothing. */
  lemma DismissDismissedUnchanged(alerts: seq<Alert>, id: string)
    requires forall a :: a in alerts && a.id == id ==> a.dismissed
    ensures DismissAlert(alerts, id) == alerts
  {
    var r := DismissAlert(alerts, id);
    forall i | 0 <= i < |alerts|
      ensures r[i] == alerts[i]
    {
      assert alerts[i] in alerts;
    }
  }

  /** After "Dismiss All" nothing is active. */
  lemma DismissAllLeavesNoneActive(alerts: seq<Alert>)
    ensures ActiveAlerts(DismissAllAlerts(alerts)) == []
  {
    AllDismissedNoneActive(DismissAllAlerts(alerts));
  }

  /** A list whose every alert is dismissed has no active alert. */
  lemma {:induction false} AllDismissedNoneActive(alerts: seq<Alert>)
    requires forall i :: 0 <= i < |alerts| ==> alerts[i].dismissed
    ensures ActiveAlerts(alerts) == []
  {
    if alerts != [] {
      AllDismissedNoneActive(alerts[1..]);
    }
  }

  /** Dismissing an alert removes exactly the alerts with that id from the active list, keeping the rest in order. */
  lemma {:induction false} DismissRemovesFromActive(alerts: seq<Alert>, id: string)
    ensures ActiveAlerts(DismissAlert(alerts, id)) == WithoutId(ActiveAlerts(alerts), id)
  {
    if alerts != [] {
      var r := DismissAlert(alerts, id);
      DismissRemovesFromActive(alerts[1..], id);
      assert r[1..] == DismissAlert(alerts[1..], id);
      if !alerts[0].dismissed && alerts[0].id != id {
        assert ActiveAlerts(alerts) == [alerts[0]] + ActiveAlerts(alerts[1..]);
        assert ([alerts[0]] + ActiveAlerts(alerts[1..]))[1..] == ActiveAlerts(alerts[1..]);
      } else if !alerts[0].dismissed {
        assert ActiveAlerts(alerts) == [alerts[0]] + ActiveAlerts(alerts[1..]);
        assert ([alerts[0]] + ActiveAlerts(alerts[1..]))[1..] == ActiveAlerts(alerts[1..]);
      }
    }
  }

  /** With no alert dismissed, every alert is active, in order. */
  lemma {:induction false} NoneDismissedAllActive(alerts: seq<Alert>)
    requires forall i :: 0 <= i < |alerts| ==> !alerts[i].dismissed
    ensures ActiveAlerts(alerts) == alerts
  {
    if alerts != [] {
      NoneDismissedAllActive(alerts[1..]);
    }
  }

  /** The error, warning and info counts add up to the active count. */
  lemma {:induction false} TypeCountsAddUp(alerts: seq<Alert>)
    ensures |OfType(alerts, ErrorAlert)| + |OfType(alerts, WarningAlert)| + |OfType(alerts, InfoAlert)| == |alerts|
  {
    if alerts != [] {
      TypeCountsAddUp(alerts[1..]);
    }
  }

  /**
   * The counts under the active total count the active alerts of each
   * type: taking the active alerts of a type is taking the alerts of that
   * type that are active.
   */
  lemma {:induction false} ActiveOfTypeCommute(alerts: seq<Alert>, t: AlertType)
    ensures OfType(ActiveAlerts(alerts), t) == ActiveAlerts(OfType(alerts, t))
  {
    if alerts != [] {
      ActiveOfTypeCommute(alerts[1..], t);
      var x := alerts[0];
      if !x.dismissed {
        assert ([x] + ActiveAlerts(alerts[1..]))[1..] == ActiveAlerts(alerts[1..]);
      }
      if x.alertType == t {
        assert ([x] + OfType(alerts[1..], t))[1..] == OfType(alerts[1..], t);
      }
    }
  }

  /** The errors and warnings shown never exceed the active alerts. */
  lemma CountsWithinActive(alerts: seq<Alert>)
    ensures ErrorCount(alerts) + WarningCount(alerts) <= |ActiveAlerts(alerts)|
  {
    TypeCountsAddUp(ActiveAlerts(alerts));
  }

  /** The page opens with all four initial alerts active. */
  lemma InitialAllActive()
    ensures ActiveAlerts(MockAlerts) == MockAlerts && |MockAlerts| == 4
  {
    NoneDismissedAllActive(MockAlerts);
  }
}
