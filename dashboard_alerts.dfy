/**
 * DashboardAlertsComponent (dashboard-alerts.component.ts): which alerts
 * are shown and in what order, acknowledging an alert, and the severity,
 * icon and duration texts.
 *
 * `getDisplayAlerts` filters out acknowledged alerts, sorts a copy with
 * `Array.prototype.sort` (stable since ECMAScript 2019, section 22.1.3.27)
 * and keeps the first `maxAlertsToShow`. The model sorts with a stable
 * insertion sort and proves the three things that determine a stable sort's
 * output: display order, same elements, and equal-key alerts kept in their
 * input order.
 */
module DashboardAlerts {
  import opened Models
  import opened Text
  import opened Sequences

  /** `severityOrder[a.severity] || 0`. */
  function SeverityRank(severity: string): (rank: nat)
    ensures rank <= 4
    ensures rank == 0 <==> severity !in {"CRITICAL", "HIGH", "MEDIUM", "LOW"}
  {
    match severity
    case "CRITICAL" => 4
    case "HIGH" => 3
    case "MEDIUM" => 2
    case "LOW" => 1
    case _ => 0
  }

  /**
   * The comparator returns a negative number for (a, b): higher rank first,
   * then the more recent timestamp first.
   */
  predicate Precedes(a: DeviceAlert, b: DeviceAlert) {
    SeverityRank(a.severity) > SeverityRank(b.severity) ||
    (SeverityRank(a.severity) == SeverityRank(b.severity) && a.timestamp > b.timestamp)
  }

  /** No alert is preceded by one listed after it: rank descending, then newest first. */
  predicate InDisplayOrder(s: seq<DeviceAlert>) {
    forall i, j :: 0 <= i < j < |s| ==> !Precedes(s[j], s[i])
  }

  /** The alerts `a` contributes to `WithKey(_, rank, timestamp)`. */
  function KeyPart(a: DeviceAlert, rank: int, timestamp: int): seq<DeviceAlert> {
    if SeverityRank(a.severity) == rank && a.timestamp == timestamp then [a] else []
  }

  /** The alerts of `s` whose comparator key is (rank, timestamp), in their order in `s`. */
  function WithKey(s: seq<DeviceAlert>, rank: int, timestamp: int): seq<DeviceAlert>
    decreases |s|
  {
    if s == [] then []
    else
      KeyPart(s[0], rank, timestamp) + WithKey(s[1..], rank, timestamp)
  }

  /** Places `x` after the alerts that precede it and before all others. */
  function Insert(x: DeviceAlert, s: seq<DeviceAlert>): (r: seq<DeviceAlert>)
    ensures multiset(r) == multiset(s) + multiset{x}
    decreases |s|
  {
    if s == [] then [x]
    else if Precedes(s[0], x) then
      assert s == [s[0]] + s[1..];
      [s[0]] + Insert(x, s[1..])
    else [x] + s
  }

  /** The stable sort of `getDisplayAlerts`, as an insertion sort. */
  function SortAlerts(s: seq<DeviceAlert>): (r: seq<DeviceAlert>)
    ensures multiset(r) == multiset(s)
    decreases |s|
  {
    if s == [] then []
    else
      assert s == [s[0]] + s[1..];
      Insert(s[0], SortAlerts(s[1..]))
  }

  lemma {:induction false} InsertInOrder(x: DeviceAlert, s: seq<DeviceAlert>)
    requires InDisplayOrder(s)
    ensures InDisplayOrder(Insert(x, s))
    decreases |s|
  {
    if s != [] && Precedes(s[0], x) {
      var rest := Insert(x, s[1..]);
      InsertInOrder(x, s[1..]);
      forall j | 0 <= j < |rest|
        ensures !Precedes(rest[j], s[0])
      {
        assert rest[j] in multiset(rest);
        if rest[j] != x {
          assert rest[j] in s[1..];
          var k :| 0 <= k < |s[1..]| && s[1..][k] == rest[j];
          assert s[k + 1] == rest[j];
        }
      }
      assert Insert(x, s) == [s[0]] + rest;
    }
  }

  /** The sort's output is in display order. */
  lemma {:induction false} SortAlertsInOrder(s: seq<DeviceAlert>)
    ensures InDisplayOrder(SortAlerts(s))
    decreases |s|
  {
    if s != [] {
      SortAlertsInOrder(s[1..]);
      InsertInOrder(s[0], SortAlerts(s[1..]));
    }
  }

  lemma WithKeyCons(a: DeviceAlert, t: seq<DeviceAlert>, rank: int, timestamp: int)
    ensures WithKey([a] + t, rank, timestamp) == KeyPart(a, rank, timestamp) + WithKey(t, rank, timestamp)
  {
    assert ([a] + t)[1..] == t;
  }

  lemma {:induction false} InsertKeepsKeyOrder(x: DeviceAlert, s: seq<DeviceAlert>, rank: int, timestamp: int)
    ensures WithKey(Insert(x, s), rank, timestamp) == KeyPart(x, rank, timestamp) + WithKey(s, rank, timestamp)
    decreases |s|
  {
    if s == [] {
      WithKeyCons(x, [], rank, timestamp);
    } else if Precedes(s[0], x) {
      var rest := Insert(x, s[1..]);
      InsertKeepsKeyOrder(x, s[1..], rank, timestamp);
      WithKeyCons(s[0], rest, rank, timestamp);
      WithKeyCons(s[0], s[1..], rank, timestamp);
      assert s == [s[0]] + s[1..];
      var head := KeyPart(s[0], rank, timestamp);
      var mine := KeyPart(x, rank, timestamp);
      var tail := WithKey(s[1..], rank, timestamp);
      assert Insert(x, s) == [s[0]] + rest;
      if head == [] {
        assert head + (mine + tail) == mine + tail;
        assert head + tail == tail;
      } else {
        assert mine == [];
        assert mine + (head + tail) == head + tail;
        assert mine + tail == tail;
      }
    } else {
      WithKeyCons(x, s, rank, timestamp);
    }
  }

  /**
   * Stability: for every comparator key, the alerts with that key appear in
   * the sorted output in the same order as in the input.
   */
  lemma {:induction false} SortAlertsStable(s: seq<DeviceAlert>, rank: int, timestamp: int)
    ensures WithKey(SortAlerts(s), rank, timestamp) == WithKey(s, rank, timestamp)
    decreases |s|
  {
    if s != [] {
      SortAlertsStable(s[1..], rank, timestamp);
      InsertKeepsKeyOrder(s[0], SortAlerts(s[1..]), rank, timestamp);
    }
  }

  /** `filter(alert => !alert.isAcknowledged)`. */
  function Unacknowledged(alerts: seq<DeviceAlert>): (r: seq<DeviceAlert>)
    reads set a | a in alerts
    ensures forall i :: 0 <= i < |r| ==> r[i] in alerts && !r[i].isAcknowledged
    ensures forall i :: 0 <= i < |alerts| && !alerts[i].isAcknowledged ==> alerts[i] in r
    ensures IsSubsequence(r, alerts)
    decreases |alerts|
  {
    if alerts == [] then []
    else
      assert alerts == [alerts[0]] + alerts[1..];
      if alerts[0].isAcknowledged then Unacknowledged(alerts[1..])
      else [alerts[0]] + Unacknowledged(alerts[1..])
  }

  /**
   * The filter keeps every unacknowledged alert as many times as the input
   * holds it, and drops every acknowledged one.
   */
  lemma {:induction false} UnacknowledgedMultiplicity(alerts: seq<DeviceAlert>)
    ensures forall a: DeviceAlert ::
      multiset(Unacknowledged(alerts))[a] == (if a.isAcknowledged then 0 else multiset(alerts)[a])
    decreases |alerts|
  {
    if alerts != [] {
      UnacknowledgedMultiplicity(alerts[1..]);
      assert alerts == [alerts[0]] + alerts[1..];
      assert multiset(alerts) == multiset{alerts[0]} + multiset(alerts[1..]);
    }
  }

  /** Where `Array.prototype.slice(0, end)` stops: a negative end counts from the back. */
  function SliceEnd(length: nat, end: int): (e: nat)
    ensures e <= length
  {
    if end >= 0 then (if end < length then end else length)
    else if length + end > 0 then length + end
    else 0
  }

  /** The pipeline of `getDisplayAlerts`: filter, stable sort, then slice. */
  function DisplayAlertsOf(alerts: seq<DeviceAlert>, maxAlertsToShow: int): seq<DeviceAlert>
    reads set a | a in alerts
  {
    var sorted := SortAlerts(Unacknowledged(alerts));
    sorted[..SliceEnd(|sorted|, maxAlertsToShow)]
  }

  /**
   * What is shown: only unacknowledged alerts of the input, in display
   * order; as many as `maxAlertsToShow` allows (a negative value drops that
   * many from the end, as `slice(0, -k)` does);
   * and the first ones of the whole sorted list, so the truncation loses
   * only alerts that rank no higher than every shown one.
   */
  lemma DisplayAlertsProperties(alerts: seq<DeviceAlert>, maxAlertsToShow: int)
    ensures var r := DisplayAlertsOf(alerts, maxAlertsToShow);
      var pending := Unacknowledged(alerts);
      && (forall a :: a in r ==> a in alerts && !a.isAcknowledged)
      && InDisplayOrder(r)
      && (maxAlertsToShow >= 0 ==> |r| == if maxAlertsToShow < |pending| then maxAlertsToShow else |pending|)
      && (maxAlertsToShow < 0 ==> |r| == if |pending| + maxAlertsToShow > 0 then |pending| + maxAlertsToShow else 0)
      && r == SortAlerts(pending)[..|r|]
      && (forall a, b :: a in r && b in pending && b !in r ==> !Precedes(b, a))
  {
    var pending := Unacknowledged(alerts);
    var sorted := SortAlerts(pending);
    var r := DisplayAlertsOf(alerts, maxAlertsToShow);
    SortAlertsInOrder(pending);
    assert multiset(sorted) == multiset(pending);
    forall a | a in r
      ensures a in alerts && !a.isAcknowledged
    {
      assert a in sorted;
      assert a in multiset(sorted);
    }
    forall a, b | a in r && b in pending && b !in r
      ensures !Precedes(b, a)
    {
      assert b in multiset(sorted);
      var i :| 0 <= i < |r| && r[i] == a;
      var j :| 0 <= j < |sorted| && sorted[j] == b;
      assert sorted[i] == a;
      assert r == sorted[..|r|];
      AbsentFromPrefix(sorted, |r|, j);
    }
  }

  lemma AbsentFromPrefix(s: seq<DeviceAlert>, m: nat, j: nat)
    requires m <= |s| && j < |s| && s[j] !in s[..m]
    ensures j >= m
  {
  }

  /** The alerts component's inputs and its one state-changing action. */
  class AlertsComponent {
    var alerts: seq<DeviceAlert>
    var maxAlertsToShow: int

    constructor ()
      ensures alerts == [] && maxAlertsToShow == 5
    {
      alerts := [];
      maxAlertsToShow := 5;
    }

    /** `getDisplayAlerts`: reads the alerts, changes neither them nor their order. */
    function GetDisplayAlerts(): seq<DeviceAlert>
      reads this, set a | a in alerts
    {
      DisplayAlertsOf(alerts, maxAlertsToShow)
    }

    /**
     * `acknowledgeAlert`: sets the alert's flag and nothing else (so a
     * second call changes nothing); the alert is then never displayed.
     */
    method AcknowledgeAlert(alert: DeviceAlert)
      modifies alert
      ensures alert.isAcknowledged
      ensures alert !in GetDisplayAlerts()
    {
      alert.isAcknowledged := true;
      DisplayAlertsProperties(alerts, maxAlertsToShow);
    }
  }

  /** `getSeverityClass`. */
  function SeverityClass(severity: string): string {
    match severity
    case "CRITICAL" => "severity-critical"
    case "HIGH" => "severity-high"
    case "MEDIUM" => "severity-medium"
    case "LOW" => "severity-low"
    case _ => "severity-low"
  }

  /**
   * The severity class tells the ranks apart except that an unknown
   * severity is styled as LOW.
   */
  lemma SeverityClassByRank(severity: string, other: string)
    ensures SeverityClass(severity) == "severity-low" <==> SeverityRank(severity) <= 1
    ensures SeverityRank(severity) == 0 ==> SeverityClass(severity) == SeverityClass("LOW")
    ensures SeverityRank(severity) >= 1 && SeverityRank(other) >= 1 ==>
      (SeverityClass(severity) == SeverityClass(other) <==> SeverityRank(severity) == SeverityRank(other))
  {
  }

  /** `getAlertIcon`. */
  function AlertIcon(alertType: string): string {
    match alertType
    case "OFFLINE" => "fas fa-wifi"
    case "ERROR" => "fas fa-exclamation-circle"
    case "MAINTENANCE" => "fas fa-tools"
    case "CONFIGURATION" => "fas fa-cog"
    case _ => "fas fa-bell"
  }

  /** The four known alert types get four different icons; any other type gets the bell. */
  lemma AlertIconDistinct(alertType: string, other: string)
    ensures alertType !in {"OFFLINE", "ERROR", "MAINTENANCE", "CONFIGURATION"} ==> AlertIcon(alertType) == "fas fa-bell"
    ensures alertType in {"OFFLINE", "ERROR", "MAINTENANCE", "CONFIGURATION"} ==>
      (AlertIcon(alertType) == AlertIcon(other) <==> alertType == other)
  {
  }

  /** The plural ending of the duration texts: only counts above one get an 's'. */
  function Plural(count: int): string {
    if count > 1 then "s" else ""
  }

  /** `getDurationText`: minutes, then hours and remaining minutes, then days. */
  function DurationText(minutes: int): string {
    if minutes < 60 then
      "há " + IntToString(minutes) + " minuto" + Plural(minutes)
    else
      var hours := minutes / 60;
      var remainingMinutes := minutes % 60;
      if hours < 24 then
        "há " + IntToString(hours) + " hora" + Plural(hours)
        + (if remainingMinutes > 0 then " e " + IntToString(remainingMinutes) + " min" else "")
      else
        var days := hours / 24;
        "há " + IntToString(days) + " dia" + Plural(days)
  }

  /** From one hour up to a day, the text gives the whole hours and any leftover minutes. */
  lemma DurationTextHours(minutes: int, hours: int, rest: int)
    requires 60 <= minutes < 1440
    requires minutes == 60 * hours + rest && 0 <= rest < 60
    ensures 1 <= hours <= 23
    ensures DurationText(minutes) == "há " + IntToString(hours) + " hora" + Plural(hours)
      + (if rest > 0 then " e " + IntToString(rest) + " min" else "")
  {
    assert minutes / 60 == hours && minutes % 60 == rest;
  }

  /** From a day up, the text gives the whole days: floor(floor(m / 60) / 24) is floor(m / 1440). */
  lemma DurationTextDays(minutes: int, days: int)
    requires minutes >= 1440
    requires 1440 * days <= minutes < 1440 * (days + 1)
    ensures days >= 1
    ensures DurationText(minutes) == "há " + IntToString(days) + " dia" + Plural(days)
  {
    var hours := minutes / 60;
    assert 60 * hours <= minutes < 60 * hours + 60;
    assert 24 * days <= hours < 24 * (days + 1);
  }
}
