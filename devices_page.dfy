/**
 * DevicesPageComponent (devices-page.component.ts): the three counters
 * above the device list and their loading flag.
 */
module DevicesPage {
  import opened Models
  import DashboardService

  /** `devices.filter(device => device.isActive === active)`. */
  function WithActivity(devices: seq<Device>, active: bool): (r: seq<Device>)
    ensures |r| <= |devices|
    ensures forall d :: d in r <==> d in devices && d.isActive == active
    decreases |devices|
  {
    if devices == [] then []
    else
      var prefix := devices[..|devices| - 1];
      var last := devices[|devices| - 1];
      assert devices == prefix + [last];
      WithActivity(prefix, active) + (if last.isActive == active then [last] else [])
  }

  /**
   * The page's filter counts agree with the dashboard service's loop
   * counters for the same list, so the online and offline counts add up
   * to the number of devices.
   */
  lemma {:induction false} ActivityCountsMatchService(devices: seq<Device>)
    ensures |WithActivity(devices, true)| == DashboardService.CountOnline(devices)
    ensures |WithActivity(devices, false)| == DashboardService.CountOffline(devices)
    ensures |WithActivity(devices, true)| + |WithActivity(devices, false)| == |devices|
    decreases |devices|
  {
    if devices != [] {
      ActivityCountsMatchService(devices[..|devices| - 1]);
    }
  }

  /** The fields `loadDeviceStats` assigns. */
  class DevicesPageComponent {
    var totalDevices: nat
    var onlineDevices: nat
    var offlineDevices: nat
    var isLoadingStats: bool

    /** The counters always split the total into online and offline. */
    predicate Valid()
      reads this
    {
      onlineDevices + offlineDevices == totalDevices
    }

    constructor ()
      ensures Valid()
      ensures totalDevices == 0 && onlineDevices == 0 && offlineDevices == 0 && isLoadingStats
    {
      totalDevices, onlineDevices, offlineDevices := 0, 0, 0;
      isLoadingStats := true;
    }

    /**
     * `loadDeviceStats` with the outcome of `getAllDevices` as a parameter:
     * on success the counters describe the list, on error they keep their
     * values; the loading flag is down afterwards either way.
     */
    method LoadDeviceStats(outcome: Fetch<seq<Device>>)
      requires Valid()
      modifies this
      ensures Valid() && !isLoadingStats
      ensures outcome.Loaded? ==>
        && totalDevices == |outcome.value|
        && onlineDevices == DashboardService.CountOnline(outcome.value)
        && offlineDevices == DashboardService.CountOffline(outcome.value)
      ensures outcome.Failed? ==>
        && totalDevices == old(totalDevices)
        && onlineDevices == old(onlineDevices)
        && offlineDevices == old(offlineDevices)
    {
      isLoadingStats := true;
      match outcome {
        case Loaded(devices) =>
          totalDevices := |devices|;
          onlineDevices := |WithActivity(devices, true)|;
          offlineDevices := |WithActivity(devices, false)|;
          ActivityCountsMatchService(devices);
          isLoadingStats := false;
        case Failed =>
          isLoadingStats := false;
      }
    }
  }
}
