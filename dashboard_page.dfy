/**
 * DashboardPageComponent (dashboard-page.component.ts): the "last update"
 * text and the page's own status label and class.
 */
module DashboardPage {
  import opened Models
  import opened Text
  import DashboardService

  /**
   * What `formatLastUpdate` returns: a relative text, or (an hour or more
   * ago) the update time rendered by `toLocaleTimeString`, which is not
   * modelled beyond the instant it renders.
   */
  datatype LastUpdateText = Relative(text: string) | LocaleTime(dateMs: int)

  /** `Math.floor(Math.floor(diff / 1000) / 60)`; Dafny's `/` floors for a positive divisor. */
  function ElapsedMinutes(diffMs: int): int {
    (diffMs / 1000) / 60
  }

  /** Whole minutes elapsed are the whole multiples of 60000 ms in the difference. */
  lemma ElapsedMinutesBracket(diffMs: int)
    ensures var m := ElapsedMinutes(diffMs);
      60000 * m <= diffMs < 60000 * (m + 1)
  {
    var s := diffMs / 1000;
    assert 1000 * s <= diffMs < 1000 * s + 1000;
    var m := s / 60;
    assert 60 * m <= s < 60 * m + 60;
  }

  /** `formatLastUpdate(date)` at the clock reading `nowMs`. */
  function FormatLastUpdate(dateMs: int, nowMs: int): LastUpdateText {
    var minutes := ElapsedMinutes(nowMs - dateMs);
    if minutes < 1 then Relative("Agora mesmo")
    else if minutes == 1 then Relative("Há 1 minuto")
    else if minutes < 60 then Relative("Há " + IntToString(minutes) + " minutos")
    else LocaleTime(dateMs)
  }

  /**
   * The buckets, by elapsed milliseconds: under a minute (a date in the
   * future included) is "just now"; one whole minute is singular; 2 to 59
   * whole minutes are counted; from an hour on, the time of day is shown.
   */
  lemma FormatLastUpdateBuckets(dateMs: int, nowMs: int, minutes: int)
    requires 60000 * minutes <= nowMs - dateMs < 60000 * (minutes + 1)
    ensures minutes < 1 ==> FormatLastUpdate(dateMs, nowMs) == Relative("Agora mesmo")
    ensures minutes == 1 ==> FormatLastUpdate(dateMs, nowMs) == Relative("Há 1 minuto")
    ensures 2 <= minutes < 60 ==> FormatLastUpdate(dateMs, nowMs) == Relative("Há " + IntToString(minutes) + " minutos")
    ensures minutes >= 60 ==> FormatLastUpdate(dateMs, nowMs) == LocaleTime(dateMs)
  {
    ElapsedMinutesBracket(nowMs - dateMs);
  }

  /** `getSystemStatusText`. */
  function PageStatusText(status: string): string {
    match status
    case "HEALTHY" => "Operacional"
    case "WARNING" => "Atenção"
    case "CRITICAL" => "Crítico"
    case "ERROR" => "Erro"
    case _ => "Desconhecido"
  }

  /** `getSystemStatusClass`. */
  function PageStatusClass(status: string): string {
    match status
    case "HEALTHY" => "status-healthy"
    case "WARNING" => "status-warning"
    case "CRITICAL" => "status-critical"
    case "ERROR" => "status-error"
    case _ => "status-unknown"
  }

  /**
   * The four statuses get four different labels, none of them
   * 'Desconhecido', and the class 'status-' + the lower-cased name; any
   * other string gets 'Desconhecido' and 'status-unknown'. The page's label
   * agrees with the service card's label except for HEALTHY, which the page
   * calls 'Operacional' and the card 'Saudável'.
   */
  lemma PageStatusTables(s: SystemStatus, t: SystemStatus, other: string)
    ensures PageStatusText(s.Name()) != "Desconhecido"
    ensures PageStatusText(s.Name()) == PageStatusText(t.Name()) <==> s == t
    ensures PageStatusClass(s.Name()) == "status-" + ToLower(s.Name())
    ensures other !in {"HEALTHY", "WARNING", "CRITICAL", "ERROR"} ==>
      PageStatusText(other) == "Desconhecido" && PageStatusClass(other) == "status-unknown"
    ensures PageStatusText(s.Name()) == DashboardService.SystemStatusText(s) <==> s != Healthy
  {
  }
}
