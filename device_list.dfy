/**
 * DeviceListComponent (device-list.component.ts): the device table's data,
 * its three filters and the filtered view shown in the table.
 */
module DeviceList {
  import opened Models
  import opened Text
  import opened Sequences

  /**
   * The predicate of `applyFilters`: an empty filter value is off; type and
   * status must match exactly; the search term must occur, ignoring case,
   * in the name or in the location.
   */
  predicate MatchesFilters(device: Device, selectedType: string, selectedStatus: string, searchTerm: string) {
    && (selectedType == "" || device.deviceType == selectedType)
    && (selectedStatus == "" || device.status == selectedStatus)
    && (searchTerm == "" ||
        Contains(ToLower(device.deviceName), ToLower(searchTerm)) ||
        Contains(ToLower(device.location), ToLower(searchTerm)))
  }

  /** `devices.filter(...)`: the matching devices, in their order. */
  function FilterDevices(devices: seq<Device>, selectedType: string, selectedStatus: string, searchTerm: string): (r: seq<Device>)
    ensures forall d :: d in r <==> d in devices && MatchesFilters(d, selectedType, selectedStatus, searchTerm)
    ensures IsSubsequence(r, devices)
    ensures forall d :: multiset(r)[d] == if MatchesFilters(d, selectedType, selectedStatus, searchTerm) then multiset(devices)[d] else 0
    decreases |devices|
  {
    if devices == [] then []
    else
      assert devices == [devices[0]] + devices[1..];
      var rest := FilterDevices(devices[1..], selectedType, selectedStatus, searchTerm);
      if MatchesFilters(devices[0], selectedType, selectedStatus, searchTerm) then [devices[0]] + rest else rest
  }

  /** With every filter empty, the table shows all devices, in their order. */
  lemma {:induction false} NoFiltersShowsAll(devices: seq<Device>)
    ensures FilterDevices(devices, "", "", "") == devices
    decreases |devices|
  {
    if devices != [] {
      NoFiltersShowsAll(devices[1..]);
      assert devices == [devices[0]] + devices[1..];
    }
  }

  /** Filtering the filtered list again changes nothing. */
  lemma {:induction false} FilterIdempotent(devices: seq<Device>, selectedType: string, selectedStatus: string, searchTerm: string)
    ensures var once := FilterDevices(devices, selectedType, selectedStatus, searchTerm);
      FilterDevices(once, selectedType, selectedStatus, searchTerm) == once
    decreases |devices|
  {
    if devices != [] {
      FilterIdempotent(devices[1..], selectedType, selectedStatus, searchTerm);
      var rest := FilterDevices(devices[1..], selectedType, selectedStatus, searchTerm);
      if MatchesFilters(devices[0], selectedType, selectedStatus, searchTerm) {
        assert ([devices[0]] + rest)[1..] == rest;
      }
    }
  }

  /** The three filters are conjunctive: applying them together is applying them one after another. */
  lemma {:induction false} FiltersCompose(devices: seq<Device>, selectedType: string, selectedStatus: string, searchTerm: string)
    ensures FilterDevices(devices, selectedType, selectedStatus, searchTerm) ==
      FilterDevices(FilterDevices(FilterDevices(devices, selectedType, "", ""), "", selectedStatus, ""), "", "", searchTerm)
    decreases |devices|
  {
    if devices != [] {
      FiltersCompose(devices[1..], selectedType, selectedStatus, searchTerm);
      var d := devices[0];
      var byType := FilterDevices(devices[1..], selectedType, "", "");
      var byStatus := FilterDevices(byType, "", selectedStatus, "");
      if MatchesFilters(d, selectedType, "", "") {
        assert ([d] + byType)[1..] == byType;
        if MatchesFilters(d, "", selectedStatus, "") {
          assert ([d] + byStatus)[1..] == byStatus;
        }
      }
    }
  }

  /**
   * The search is a case-insensitive substring test: a device matches a
   * non-empty term exactly when the lower-cased term occurs at some
   * position of the lower-cased name or location, and upper-casing the
   * term does not change the result.
   */
  lemma SearchIsCaseInsensitiveSubstring(device: Device, searchTerm: string)
    requires searchTerm != ""
    ensures MatchesFilters(device, "", "", searchTerm) <==>
      (exists i :: OccursAt(ToLower(device.deviceName), ToLower(searchTerm), i)) ||
      (exists i :: OccursAt(ToLower(device.location), ToLower(searchTerm), i))
    ensures MatchesFilters(device, "", "", ToUpper(searchTerm)) == MatchesFilters(device, "", "", searchTerm)
  {
    ContainsIffOccurs(ToLower(device.deviceName), ToLower(searchTerm));
    ContainsIffOccurs(ToLower(device.location), ToLower(searchTerm));
    ToLowerIgnoresCase(searchTerm);
  }

  /** `getStatusClass`'s table. */
  const StatusClasses: map<string, string> := map[
    "ACTIVE" := "status-active",
    "INACTIVE" := "status-inactive",
    "MAINTENANCE" := "status-maintenance",
    "ERROR" := "status-error",
    "OFFLINE" := "status-offline",
    "CONFIGURING" := "status-configuring"]

  /** `statusClasses[status] || 'status-unknown'`. */
  function StatusClass(status: string): string {
    if status in StatusClasses then StatusClasses[status] else "status-unknown"
  }

  /**
   * The six listed statuses get six different classes, none of them
   * 'status-unknown'; every other status gets 'status-unknown'.
   */
  lemma StatusClassTable(status: string, other: string)
    ensures StatusClass(status) == "status-unknown" <==> status !in StatusClasses
    ensures status in StatusClasses && other in StatusClasses ==>
      (StatusClass(status) == StatusClass(other) <==> status == other)
    ensures StatusPrefix(StatusClass(status))
  {
  }

  predicate StatusPrefix(s: string) {
    |s| > 7 && s[..7] == "status-"
  }

  /** `getOnlineClass`. */
  function OnlineClass(isOnline: bool): (c: string)
    ensures c == "online" <==> isOnline
  {
    if isOnline then "online" else "offline"
  }

  /** The fields of the component that its methods reassign. */
  class DeviceListComponent {
    var devices: seq<Device>
    var filteredDevices: seq<Device>
    /** `dataSource.data`, the rows of the table. */
    var dataSourceData: seq<Device>
    var isLoading: bool
    var selectedType: string
    var selectedStatus: string
    var searchTerm: string

    constructor ()
      ensures devices == [] && filteredDevices == [] && dataSourceData == []
      ensures !isLoading && selectedType == "" && selectedStatus == "" && searchTerm == ""
    {
      devices, filteredDevices, dataSourceData := [], [], [];
      isLoading := false;
      selectedType, selectedStatus, searchTerm := "", "", "";
    }

    /**
     * `applyFilters`: the table shows exactly the devices matching the
     * current filters; nothing else changes. The result depends only on
     * fields the call does not change, so a second call changes nothing.
     */
    method ApplyFilters()
      modifies this
      ensures filteredDevices == FilterDevices(devices, selectedType, selectedStatus, searchTerm)
      ensures dataSourceData == filteredDevices
      ensures devices == old(devices) && isLoading == old(isLoading)
      ensures selectedType == old(selectedType) && selectedStatus == old(selectedStatus) && searchTerm == old(searchTerm)
    {
      filteredDevices := FilterDevices(devices, selectedType, selectedStatus, searchTerm);
      dataSourceData := filteredDevices;
    }

    /** `clearFilters`: all three filters off, so the table shows every device. */
    method ClearFilters()
      modifies this
      ensures selectedType == "" && selectedStatus == "" && searchTerm == ""
      ensures filteredDevices == devices && dataSourceData == devices
      ensures devices == old(devices) && isLoading == old(isLoading)
    {
      selectedType := "";
      selectedStatus := "";
      searchTerm := "";
      ApplyFilters();
      NoFiltersShowsAll(devices);
    }

    /** `loadFallbackData`: no devices, so nothing in the table. */
    method LoadFallbackData()
      modifies this
      ensures devices == [] && filteredDevices == [] && dataSourceData == []
      ensures selectedType == old(selectedType) && selectedStatus == old(selectedStatus) && searchTerm == old(searchTerm)
      ensures isLoading == old(isLoading)
    {
      devices := [];
      ApplyFilters();
    }

    /**
     * `loadDevices` with the outcome of `getAllDevices` as a parameter: on
     * success the devices are replaced and filtered, on error the fallback
     * empties the table; loading ends either way.
     */
    method LoadDevices(outcome: Fetch<seq<Device>>)
      modifies this
      ensures !isLoading && dataSourceData == filteredDevices
      ensures outcome.Loaded? ==>
        && devices == outcome.value
        && filteredDevices == FilterDevices(outcome.value, selectedType, selectedStatus, searchTerm)
      ensures outcome.Failed? ==> devices == [] && filteredDevices == []
      ensures selectedType == old(selectedType) && selectedStatus == old(selectedStatus) && searchTerm == old(searchTerm)
    {
      isLoading := true;
      match outcome {
        case Loaded(fetched) =>
          devices := fetched;
          ApplyFilters();
          isLoading := false;
        case Failed =>
          isLoading := false;
          LoadFallbackData();
      }
    }
  }
}
