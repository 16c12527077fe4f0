# IoT dashboard core, modelled in Dafny

This project models the logic of an Angular IoT dashboard front end: how it
turns a list of devices into the dashboard, and how it ranks alerts and
filters the device table.

- **Statistics.** Counting online, offline, maintenance and error devices,
  the uptime percentage and the system-health classification
  (`DashboardService`, `dashboard_service.dfy`).
- **Distributions and charts.** The type and status distributions in
  first-occurrence order, and the two chart projections with their
  description and colour tables.
- **Cards and fallback.** The six dashboard cards and the fallback
  statistics.
- **Dashboard state.** The `DashboardState` record and the service methods
  that update it.
- **Alerts.** Which alerts are shown and in what order, acknowledging an
  alert, and the severity, icon and duration texts (`DashboardAlerts`,
  `dashboard_alerts.dfy`).
- **Device table.** The device list's three filters and the filtered table
  (`DeviceList`, `device_list.dfy`).
- **Page helpers.** The counters of the devices page (`DevicesPage`,
  `devices_page.dfy`), and the "last update" text and status labels of the
  dashboard page (`DashboardPage`, `dashboard_page.dfy`).
- **Shared modules.** `Models` (`models.dfy`) holds the records. `Text`
  (`text.dfy`) models the JavaScript string operations the code relies on:
  ASCII case mapping, `includes`, and integer rendering. `Sequences`
  (`sequences.dfy`) defines the subsequence relation that `filter` produces.

How the model is shaped:

- **Classes for updated state.** State the code updates in place is a
  class: the service's `DashboardState`, the fields of the three component
  classes (`AlertsComponent`, `DeviceListComponent`, `DevicesPageComponent`),
  and the `isAcknowledged` flag of the `DeviceAlert` class. Each method states the new state.
- **Loops for loops.** Where the code counts in a loop, the model is a
  method with a loop, proved equal to a specification function:
  - the four counters of the statistics;
  - the count dictionary of the distributions.
- **Functions for expressions.** Everything else is functions over sequences
  of devices, with lemmas about them.
- **Parameters for the outside world.** Every clock reading (`new Date()`)
  is an integer parameter in epoch milliseconds. What a component's
  subscription to `getAllDevices` delivers is a parameter: `Loaded(devices)`
  or `Failed`. `DeviceService.getAllDevices` catches every HTTP error and
  emits an empty list, so an unavailable backend arrives as `Loaded([])`;
  `Failed` stands only for an error raised after the service.

Behaviour taken from the code, where a reader might expect otherwise:

- **Type chart colours.** The type chart's `backgroundColor` and
  `borderColor` are always the same fixed ten-entry lists, whatever the
  number of types. Only the status chart colours each entry by its key.
- **No shared fetch.** `getDashboardData` fetches the devices three times:
  once for the statistics and once for each distribution. There is no
  single-flight guard. `GetDashboardData` therefore takes three device
  lists, and `DashboardDataConsistent` proves the parts agree when the
  three lists are the same.
- **The error flag is never cleared.** `refreshDashboard` never lowers
  `hasError` on success.
- **Two labels for HEALTHY.** The service's card labels HEALTHY
  'Saudável', while the dashboard page labels it 'Operacional'.
- **Percentages can add up to 101.** The online and offline card
  percentages are rounded separately, so they add up to 100 or 101 (for
  example, 1 online and 7 offline give 13 + 88).
- **A missing status.** An empty status counts as 'UNKNOWN' in the status
  distribution. It counts as neither maintenance nor error in the
  statistics.

## Model

| member | source | states |
|---|---|---|
| DashboardService.RoundPercent | src/app/services/dashboard.service.ts:90 | the result r brackets 100·part/whole within half a unit: 2·whole·r − whole ≤ 200·part < 2·whole·r + whole (round half up), and it lies in 0..100 when 0 ≤ part ≤ whole |
| DashboardService.RoundPercentIsMathRound | src/app/services/dashboard.service.ts:90 | the integer percentage equals `Math.round` on the exact ratio, i.e. floor(part/whole·100 + 0.5) over the reals |
| DashboardService.CalculateSystemStatusMatchesPercentages | src/app/services/dashboard.service.ts:231-241 | on every input, the integer classifier gives the same status as the ordered checks on the true percentages: no devices → WARNING; error share > 30% → ERROR (even when the online share is ≥ 80%); online ≥ 80% → HEALTHY; ≥ 60% → WARNING; otherwise CRITICAL |
| DashboardService.StatusTestsIgnoreCase | src/app/services/dashboard.service.ts:65-80 | the maintenance and error tests give the same answer for the upper-cased status, and no status passes both |
| DashboardService.OnlineOfflinePartition | src/app/services/dashboard.service.ts:64-73 | online + offline = number of devices |
| DashboardService.MaintenanceAndErrorsBounded | src/app/services/dashboard.service.ts:75-80 | the maintenance and error buckets are exclusive: together they hold at most the number of devices |
| DashboardService.CountOnlineIsActiveIndices | src/app/services/dashboard.service.ts:66-70 | onlineDevices is the number of positions whose record has `isActive` true |
| DashboardService.StatsWellFormed | src/app/services/dashboard.service.ts:56-92 | total = list length; online + offline = total; online counts the active records; maintenance + errors ≤ total; uptime in 0..100; no devices → uptime 0 and WARNING; lastUpdate is the clock reading |
| DashboardService.GetDashboardStats | src/app/services/dashboard.service.ts:55-95 | the one-pass loop with four counters produces exactly the statistics specified by StatsOf |
| DashboardService.FallbackIsEmptyListStats | src/app/services/dashboard.service.ts:463-474 | the fallback statistics are those of an empty device list, the timestamp aside |
| DashboardService.FirstOccurrencesInOrder | src/app/services/dashboard.service.ts:110-115 | the distinct keys are listed in increasing order of their first occurrence in the devices |
| DashboardService.FirstOccurrencesCountAll | src/app/services/dashboard.service.ts:110-113 | the per-key counts over the distinct keys add up to the number of keys |
| DashboardService.CountByKey | src/app/services/dashboard.service.ts:110-113 | the counting loop's dictionary has exactly the keys present, each with its number of occurrences, and its insertion order is the first-occurrence order |
| DashboardService.GetTypeDistribution | src/app/services/dashboard.service.ts:108-122 | the loop-and-map computation equals the type distribution specified by TypeDistribution |
| DashboardService.GetStatusDistribution | src/app/services/dashboard.service.ts:136-151 | the loop-and-map computation equals the status distribution specified by StatusDistribution, with an empty status keyed 'UNKNOWN' |
| DashboardService.DistributionCountsSum | src/app/services/dashboard.service.ts:110-120 | a distribution's counts add up to the number of devices |
| DashboardService.DistributionCategories | src/app/services/dashboard.service.ts:115-120 | no devices → []; a key is a category iff some device has it; categories are distinct and listed in first-occurrence order |
| DashboardService.DistributionEntries | src/app/services/dashboard.service.ts:115-120 | each entry's count is the number of devices with its key (so ≥ 1); its percentage is that count's share rounded half up, in 0..100; its description is the key's description |
| DashboardService.StatusDistributionUnknown | src/app/services/dashboard.service.ts:140 | no status category is empty, and a device with an empty status makes 'UNKNOWN' a category |
| DashboardService.StatusLookupsTotal | src/app/services/dashboard.service.ts:365-419 | every status gets a `#rrggbb` colour, '#6c757d' when it is not in the table; a type or status with no description is labelled with itself |
| DashboardService.StatusSynonymsAgree | src/app/services/dashboard.service.ts:380-419 | ACTIVE/ATIVO, INACTIVE/INATIVO, MAINTENANCE/MANUTENCAO and ERROR/ERRO share their label and their colour |
| DashboardService.TypeChartOfDevices | src/app/services/dashboard.service.ts:320-341 | one dataset; labels and data run parallel to the type distribution; each label is the entry's description; the data add up to the number of devices; the colours are the fixed ten-entry lists |
| DashboardService.StatusChartOfDevices | src/app/services/dashboard.service.ts:346-356 | one dataset; labels, data and both colour lists run parallel to the status distribution; each colour is the status's `#rrggbb` colour; the data add up to the number of devices |
| DashboardService.CreateDashboardCards | src/app/services/dashboard.service.ts:246-315 | always six cards, with the six fixed titles in their fixed order |
| DashboardService.CardsReflectStats | src/app/services/dashboard.service.ts:246-315 | each count card's value reads back as its count; the online card points up iff onlineDevices > 0; the system card points up iff the status is HEALTHY and shows the status text |
| DashboardService.CardPercentagesOfDeviceList | src/app/services/dashboard.service.ts:265-276 | the offline and error trend percentages are the offline and error counts over max(total, 1), rounded half up, and lie in 0..100; with devices, uptime + offline percentage is 100 or 101; with none, the uptime, offline and error percentages are 0 |
| DashboardService.RoundedComplementaryShares | src/app/services/dashboard.service.ts:90 | two complementary shares, each rounded half up, add up to 100 or 101 |
| DashboardService.DashboardDataConsistent | src/app/services/dashboard.service.ts:188-209 | when the three fetches return the same list, both distributions and both charts account for exactly totalDevices devices |
| DashboardService.DashboardService.constructor | src/app/services/dashboard.service.ts:30-36 | initial state: not loading, no error, auto-refresh on, 30-second interval |
| DashboardService.DashboardService.UpdateDashboardState | src/app/services/dashboard.service.ts:490-497 | each field takes the supplied value if there is one, else keeps its old value; lastUpdate is always re-stamped |
| DashboardService.DashboardService.SetLoading | src/app/services/dashboard.service.ts:502-504 | only isLoading changes, besides the timestamp |
| DashboardService.DashboardService.SetError | src/app/services/dashboard.service.ts:509-511 | only hasError changes, besides the timestamp |
| DashboardService.DashboardService.ToggleAutoRefresh | src/app/services/dashboard.service.ts:516-519 | autoRefresh is negated; nothing else changes besides the timestamp |
| DashboardService.DashboardService.SetAutoRefresh | src/app/services/dashboard.service.ts:542-544 | only autoRefresh changes, besides the timestamp |
| DashboardService.DashboardService.RefreshDashboard | src/app/services/dashboard.service.ts:524-537 | always ends not loading; hasError becomes true on failure and is never cleared on success; the other settings are kept |
| DashboardAlerts.SeverityRank | src/app/components/dashboard/dashboard-alerts/dashboard-alerts.component.ts:70-72 | the rank lies in 0..4, and it is 0 exactly for a severity outside CRITICAL, HIGH, MEDIUM and LOW |
| DashboardAlerts.SortAlerts | src/app/components/dashboard/dashboard-alerts/dashboard-alerts.component.ts:68-79 | the sorted list is a permutation of its input (same multiset) |
| DashboardAlerts.SortAlertsInOrder | src/app/components/dashboard/dashboard-alerts/dashboard-alerts.component.ts:68-79 | the sorted list is in display order: rank descending, then newest timestamp first |
| DashboardAlerts.SortAlertsStable | src/app/components/dashboard/dashboard-alerts/dashboard-alerts.component.ts:68-79 | stability: for every (rank, timestamp) key, the alerts with that key keep their input order |
| DashboardAlerts.Unacknowledged | src/app/components/dashboard/dashboard-alerts/dashboard-alerts.component.ts:67 | every kept alert is an unacknowledged input alert, every unacknowledged input alert is kept, and the result is an order-preserving subsequence |
| DashboardAlerts.UnacknowledgedMultiplicity | src/app/components/dashboard/dashboard-alerts/dashboard-alerts.component.ts:67 | each unacknowledged alert is kept as many times as the input holds it, and each acknowledged one is dropped |
| DashboardAlerts.DisplayAlertsProperties | src/app/components/dashboard/dashboard-alerts/dashboard-alerts.component.ts:65-81 | only unacknowledged input alerts are shown, in display order; the count is min(maxAlertsToShow, number of unacknowledged alerts) when maxAlertsToShow ≥ 0, and max(count + maxAlertsToShow, 0) when it is negative (`slice(0, -k)` drops k from the end); the output is a prefix of the full sorted list, so no hidden alert precedes a shown one |
| DashboardAlerts.AlertsComponent.constructor | src/app/components/dashboard/dashboard-alerts/dashboard-alerts.component.ts:19-20 | no alerts, and at most five shown |
| DashboardAlerts.AlertsComponent.AcknowledgeAlert | src/app/components/dashboard/dashboard-alerts/dashboard-alerts.component.ts:86-90 | sets only that alert's isAcknowledged, so a second call changes nothing; the alert is then not displayed |
| DashboardAlerts.SeverityClassByRank | src/app/components/dashboard/dashboard-alerts/dashboard-alerts.component.ts:25-33 | the class is 'severity-low' iff the rank is ≤ 1, so an unknown severity looks like LOW; ranks 1..4 get distinct classes |
| DashboardAlerts.AlertIconDistinct | src/app/components/dashboard/dashboard-alerts/dashboard-alerts.component.ts:38-46 | the four known alert types get four distinct icons; any other type gets the bell |
| DashboardAlerts.DurationTextHours | src/app/components/dashboard/dashboard-alerts/dashboard-alerts.component.ts:115-120 | for 60..1439 minutes = 60·h + rest: h is in 1..23 and the text gives h hours (plural iff h > 1), plus rest minutes only when rest > 0 |
| DashboardAlerts.DurationTextDays | src/app/components/dashboard/dashboard-alerts/dashboard-alerts.component.ts:122-123 | from 1440 minutes, the text gives d days where 1440·d ≤ minutes < 1440·(d+1), plural iff d > 1 |
| DeviceList.FilterDevices | src/app/components/device-list/device-list.component.ts:140-153 | keeps a device iff it matches all three active filters, each matching device as many times as the input holds it, as an order-preserving subsequence |
| DeviceList.NoFiltersShowsAll | src/app/components/device-list/device-list.component.ts:142-148 | with all three filters empty, the filtered list is the device list |
| DeviceList.FilterIdempotent | src/app/components/device-list/device-list.component.ts:139-157 | filtering an already filtered list changes nothing |
| DeviceList.FiltersCompose | src/app/components/device-list/device-list.component.ts:140-153 | the filter is conjunctive: type, then status, then search, applied one after another, give the same list |
| DeviceList.SearchIsCaseInsensitiveSubstring | src/app/components/device-list/device-list.component.ts:148-150 | a non-empty term matches iff its lower-cased form occurs at some position of the lower-cased name or location; an upper-cased term matches the same devices |
| DeviceList.StatusClassTable | src/app/components/device-list/device-list.component.ts:250-261 | 'status-unknown' iff the status is not one of the six listed; the six get distinct classes; every class starts with 'status-' |
| DeviceList.OnlineClass | src/app/components/device-list/device-list.component.ts:266-268 | 'online' iff the argument is true |
| DeviceList.DeviceListComponent.constructor | src/app/components/device-list/device-list.component.ts:49-63 | empty lists, filters off, not loading |
| DeviceList.DeviceListComponent.ApplyFilters | src/app/components/device-list/device-list.component.ts:139-157 | the table data is the filtered list, which is exactly the filter of the devices; devices and filters are unchanged, so a second call changes nothing |
| DeviceList.DeviceListComponent.ClearFilters | src/app/components/device-list/device-list.component.ts:162-167 | the three filters are empty and the table shows every device |
| DeviceList.DeviceListComponent.LoadFallbackData | src/app/components/device-list/device-list.component.ts:130-134 | devices, filtered devices and table data are all empty |
| DeviceList.DeviceListComponent.LoadDevices | src/app/components/device-list/device-list.component.ts:105-125 | on success the devices are replaced and filtered; on error the fallback empties the table; loading ends either way |
| DevicesPage.ActivityCountsMatchService | src/app/pages/devices/devices-page.component.ts:65-66 | the page's filter counts equal the dashboard service's online and offline counters for the same list, and they add up to the list length |
| DevicesPage.DevicesPageComponent.constructor | src/app/pages/devices/devices-page.component.ts:29-34 | counters at 0, and loading |
| DevicesPage.DevicesPageComponent.LoadDeviceStats | src/app/pages/devices/devices-page.component.ts:57-74 | on success total = list length and online/offline are the active/inactive counts; on error the counters keep their values; loading ends either way; online + offline = total is kept |
| DashboardPage.ElapsedMinutesBracket | src/app/pages/dashboard-page/dashboard-page.component.ts:92-94 | floor(floor(diff/1000)/60) = m with 60000·m ≤ diff < 60000·(m+1) |
| DashboardPage.FormatLastUpdateBuckets | src/app/pages/dashboard-page/dashboard-page.component.ts:90-101 | under a minute (a future date included) → 'Agora mesmo'; one minute → 'Há 1 minuto'; 2..59 → 'Há N minutos'; from an hour → the locale time of the date |
| DashboardPage.PageStatusTables | src/app/pages/dashboard-page/dashboard-page.component.ts:103-121 | the four statuses get four distinct labels, none 'Desconhecido', and the class 'status-' + lower-cased name; others get 'Desconhecido' and 'status-unknown'; the label matches the service card's except for HEALTHY |
| Text.ContainsIffOccurs | src/app/components/device-list/device-list.component.ts:149-150 | the recursive `includes` holds iff the needle occurs at some position |
| Text.IntToStringRoundTrip | src/app/services/dashboard.service.ts:250 | a rendered integer reads back as itself |

## Left out

- RxJS plumbing is not modelled: `interval`, `startWith`, `switchMap`, `combineLatest`, `shareReplay`, the `BehaviorSubject` emissions, `takeUntil`, and the 30-second timers. Each subscription outcome is a parameter instead.
- DeviceList.DeviceListComponent.LoadDevices and DevicesPage.DevicesPageComponent.LoadDeviceStats: their `Failed` branches stand for an error raised after `DeviceService.getAllDevices`; that service turns every HTTP failure into `Loaded([])`, so an unavailable backend empties the table and resets the devices-page counters to 0 rather than keeping them.
- DeviceList.DeviceListComponent.LoadDevices: `isLoading` is true while the request is in flight, and the `deviceListChanged` event (emitted here and by `loadFallbackData`, and on which the devices page reloads its counters) is not modelled; the model states only the flag's value after the outcome. The error snack-bar message is left out with the rest of the UI.
- DashboardService.DashboardService.RefreshDashboard: its `Failed` outcome stands for an error raised inside the `combineLatest` map of `getDashboardData`; every stream it combines ends in `catchError` and the alerts come from `of(...)`, so in the source the error branch, and its `hasError := true`, is practically unreachable.
- HTTP in DeviceService is not modelled. `getAllDevices` already turns failures into an empty list, so the statistics' `catchError` fallback is reachable only for errors thrown inside the map; it is modelled as the separate function CreateFallbackStats.
- `getActiveAlerts` is a constant mock built with the clock, so it is not modelled. GetDashboardData takes the alerts as a parameter.
- RoundPercent: works on exact rationals. JavaScript's `Math.round((x / total) * 100)` works in floating point and can differ at artefacts. For example, 29/200 gives 14 in JavaScript but 15 exactly. The 30/60/80 threshold comparisons are unaffected (proved against real arithmetic).
- Text.ToUpper and Text.ToLower: map ASCII letters only. Unicode case mapping (such as 'ı' or 'ß') is not modelled.
- Object key order: `Object.entries` lists integer-like keys first. The model assumes non-numeric keys and uses first-occurrence order.
- Object prototype keys: a key such as "constructor" would hit `Object.prototype` in the source's lookup objects. The model does not reproduce this.
- Missing type: a missing `deviceType` is the empty string here. JavaScript would key it as "undefined" or "null".
- Dates: `toISOString`, `toLocaleTimeString` and `toLocaleString`, and the parsing of timestamp strings, are not modelled. Timestamps and clock readings are integers in epoch milliseconds. The hour-or-more branch of `formatLastUpdate` returns the date it would render.
- An unparseable alert timestamp (a NaN in the comparator) is not modelled.
- `getTimeAgo` delegates to date-fns, whose output is not visible here, so it is not modelled.
- `viewDeviceDetails` and `trackByAlertId` only log or return a field, so they are not modelled.
- The device form, the dialogs and snackbars, `deleteDevice`, `formatDate` and `console` logging are UI plumbing and are not modelled.
- DashboardAlerts.AlertsComponent.AcknowledgeAlert: isAcknowledged becomes true in place. The planned API call is not in the code.
- DevicesPage.DevicesPageComponent.LoadDeviceStats: `isLoadingStats` is true while the request is in flight. The model states only the flag's value after the outcome.
- maxAlertsToShow is modelled as an integer. A fractional value is not modelled.
