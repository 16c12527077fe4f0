/**
 * DashboardService (src/app/services/dashboard.service.ts): the statistics
 * of the device list, the two distributions, the chart projections, the
 * cards, the fallback statistics and the service's DashboardState.
 *
 * The device list arrives as a parameter (the service fetches it from
 * DeviceService); every reading of the clock (`new Date()`) is an `int`
 * parameter.
 */
module DashboardService {
  import opened Models
  import opened Text

  // ------------------------------------------------------------------
  // Rounding and thresholds
  // ------------------------------------------------------------------

  /** Euclidean division by a positive divisor brackets the dividend. */
  lemma DivBrackets(n: int, m: int)
    requires m > 0
    ensures m * (n / m) <= n < m * (n / m) + m
  {
  }

  /** Cancelling a positive factor on both sides of a strict inequality. */
  lemma CancelPositiveFactor(a: int, b: int, c: int)
    requires a > 0 && a * b < a * c
    ensures b < c
  {
    assert a * (c - b) == a * c - a * b;
  }

  /**
   * `Math.round((part / whole) * 100)` on exact rationals: the percentage
   * rounded half up.
   */
  function RoundPercent(part: int, whole: int): (r: int)
    requires whole > 0
    ensures 2 * whole * r - whole <= 200 * part < 2 * whole * r + whole
    ensures 0 <= part <= whole ==> 0 <= r <= 100
  {
    var m := 2 * whole;
    var q := (200 * part + whole) / m;
    DivBrackets(200 * part + whole, m);
    if 0 <= part <= whole then
      CancelPositiveFactor(m, -1, q);
      CancelPositiveFactor(m, q, 101);
      q
    else q
  }

  /** Cancelling a positive real factor on both sides of an inequality. */
  lemma CancelPositiveRealFactor(a: real, b: real, c: real)
    requires c > 0.0
    ensures a * c < b * c ==> a < b
    ensures a * c <= b * c ==> a <= b
  {
    assert (b - a) * c == b * c - a * c;
  }

  /** Casting an integer product to a real multiplies the casts. */
  lemma RealOfProduct(a: int, b: int)
    ensures (a * b) as real == a as real * b as real
  {
  }

  /** The scaled ratio `(part / whole) * 100 + 0.5`, times `2 * whole`. */
  lemma ScaledRatio(p: real, w: real)
    requires w > 0.0
    ensures ((p / w) * 100.0 + 0.5) * (2.0 * w) == 200.0 * p + w
  {
    assert (p / w) * w == p;
  }

  /** A real bracketed by `r` and `r + 1` after scaling by a positive factor has floor `r`. */
  lemma FloorOfScaledBracket(x: real, c: real, r: int)
    requires c > 0.0
    requires r as real * c <= x * c < (r + 1) as real * c
    ensures x.Floor == r
  {
    CancelPositiveRealFactor(r as real, x, c);
    CancelPositiveRealFactor(x, (r + 1) as real, c);
  }

  /** The integer percentage is exactly JavaScript's `Math.round(x) = floor(x + 0.5)` of the true ratio. */
  lemma RoundPercentIsMathRound(part: int, whole: int)
    requires whole > 0
    ensures RoundPercent(part, whole) == ((part as real / whole as real) * 100.0 + 0.5).Floor
  {
    var r := RoundPercent(part, whole);
    var c := 2.0 * whole as real;
    var x := (part as real / whole as real) * 100.0 + 0.5;
    assert x * c == (200 * part + whole) as real by {
      ScaledRatio(part as real, whole as real);
    }
    assert r as real * c == (2 * whole * r) as real by {
      RealOfProduct(2 * whole, r);
    }
    assert (r + 1) as real * c == (2 * whole * (r + 1)) as real by {
      RealOfProduct(2 * whole, r + 1);
    }
    assert (2 * whole * r) as real <= (200 * part + whole) as real < (2 * whole * (r + 1)) as real;
    FloorOfScaledBracket(x, c, r);
  }

  /**
   * `calculateSystemStatus`: the checks in the source's order, the
   * percentage comparisons written as integer cross-multiplications.
   */
  function CalculateSystemStatus(online: nat, total: nat, errors: nat): SystemStatus {
    if total == 0 then Warning
    else if errors * 100 > 30 * total then Error
    else if online * 100 >= 80 * total then Healthy
    else if online * 100 >= 60 * total then Warning
    else Critical
  }

  /** The classification written with the true percentages, as the source computes them. */
  ghost function SystemStatusByPercentages(online: nat, total: nat, errors: nat): SystemStatus {
    if total == 0 then Warning
    else
      var onlinePercentage := (online as real / total as real) * 100.0;
      var errorPercentage := (errors as real / total as real) * 100.0;
      if errorPercentage > 30.0 then Error
      else if onlinePercentage >= 80.0 then Healthy
      else if onlinePercentage >= 60.0 then Warning
      else Critical
  }

  /** `count / total * 100` compared with a threshold is the cross-multiplied comparison. */
  lemma PercentageVersusThreshold(count: nat, total: nat, threshold: nat)
    requires total > 0
    ensures ((count as real / total as real) * 100.0 > threshold as real) <==> count * 100 > threshold * total
    ensures ((count as real / total as real) * 100.0 >= threshold as real) <==> count * 100 >= threshold * total
  {
    var t := total as real;
    var p := (count as real / t) * 100.0;
    assert p * t == (count * 100) as real;
    assert p > threshold as real <==> p * t > threshold as real * t;
    assert p >= threshold as real <==> p * t >= threshold as real * t;
  }

  /** The integer classifier agrees with the one on true percentages, on every input. */
  lemma CalculateSystemStatusMatchesPercentages(online: nat, total: nat, errors: nat)
    ensures CalculateSystemStatus(online, total, errors) == SystemStatusByPercentages(online, total, errors)
  {
    if total > 0 {
      PercentageVersusThreshold(errors, total, 30);
      PercentageVersusThreshold(online, total, 80);
      PercentageVersusThreshold(online, total, 60);
    }
  }

  // ------------------------------------------------------------------
  // Statistics of a device list
  // ------------------------------------------------------------------

  /** `String(status).toUpperCase()` is MAINTENANCE or MANUTENCAO. */
  predicate IsMaintenanceStatus(status: string) {
    var s := ToUpper(status);
    s == "MAINTENANCE" || s == "MANUTENCAO"
  }

  /** `String(status).toUpperCase()` is ERROR or ERRO. */
  predicate IsErrorStatus(status: string) {
    var s := ToUpper(status);
    s == "ERROR" || s == "ERRO"
  }

  /**
   * The status tests ignore case, and no status passes both, so a device
   * lands in at most one of the maintenance and error buckets.
   */
  lemma StatusTestsIgnoreCase(status: string)
    ensures IsMaintenanceStatus(ToUpper(status)) == IsMaintenanceStatus(status)
    ensures IsErrorStatus(ToUpper(status)) == IsErrorStatus(status)
    ensures !(IsMaintenanceStatus(status) && IsErrorStatus(status))
  {
    ToUpperIdempotent(status);
  }

  /** Devices whose `isActive` is true. */
  function CountOnline(devices: seq<Device>): (n: nat)
    ensures n <= |devices|
    decreases |devices|
  {
    if devices == [] then 0
    else CountOnline(devices[..|devices| - 1]) + (if devices[|devices| - 1].isActive then 1 else 0)
  }

  /** Devices whose `isActive` is false. */
  function CountOffline(devices: seq<Device>): (n: nat)
    ensures n <= |devices|
    decreases |devices|
  {
    if devices == [] then 0
    else CountOffline(devices[..|devices| - 1]) + (if devices[|devices| - 1].isActive then 0 else 1)
  }

  /** Devices counted by the `if` branch of the status test. */
  function CountMaintenance(devices: seq<Device>): (n: nat)
    ensures n <= |devices|
    decreases |devices|
  {
    if devices == [] then 0
    else CountMaintenance(devices[..|devices| - 1]) + (if IsMaintenanceStatus(devices[|devices| - 1].status) then 1 else 0)
  }

  /** Devices counted by the `else if` branch of the status test. */
  function CountErrors(devices: seq<Device>): (n: nat)
    ensures n <= |devices|
    decreases |devices|
  {
    if devices == [] then 0
    else
      var status := devices[|devices| - 1].status;
      CountErrors(devices[..|devices| - 1]) + (if !IsMaintenanceStatus(status) && IsErrorStatus(status) then 1 else 0)
  }

  /** Positions of the active devices: an independent description of "online". */
  function ActiveIndices(devices: seq<Device>): set<int> {
    set i | 0 <= i < |devices| && devices[i].isActive
  }

  /** The statistics the map body of `getDashboardStats` produces. */
  function StatsOf(devices: seq<Device>, now: int): DashboardStats {
    var total := |devices|;
    var online := CountOnline(devices);
    var errors := CountErrors(devices);
    DashboardStats(
      total, online, CountOffline(devices), CountMaintenance(devices), errors,
      CalculateSystemStatus(online, total, errors),
      if total > 0 then RoundPercent(online, total) else 0,
      now)
  }

  /** Online and offline partition the list. */
  lemma {:induction false} OnlineOfflinePartition(devices: seq<Device>)
    ensures CountOnline(devices) + CountOffline(devices) == |devices|
    decreases |devices|
  {
    if devices != [] {
      OnlineOfflinePartition(devices[..|devices| - 1]);
    }
  }

  /** The maintenance and error buckets are exclusive, so together they fit in the list. */
  lemma {:induction false} MaintenanceAndErrorsBounded(devices: seq<Device>)
    ensures CountMaintenance(devices) + CountErrors(devices) <= |devices|
    decreases |devices|
  {
    if devices != [] {
      MaintenanceAndErrorsBounded(devices[..|devices| - 1]);
    }
  }

  /** `onlineDevices` counts exactly the positions whose record has `isActive` set. */
  lemma {:induction false} CountOnlineIsActiveIndices(devices: seq<Device>)
    ensures CountOnline(devices) == |ActiveIndices(devices)|
    decreases |devices|
  {
    if devices != [] {
      var n := |devices| - 1;
      var prefix := devices[..n];
      CountOnlineIsActiveIndices(prefix);
      assert n !in ActiveIndices(prefix);
      if devices[n].isActive {
        assert ActiveIndices(devices) == ActiveIndices(prefix) + {n};
      } else {
        assert ActiveIndices(devices) == ActiveIndices(prefix);
      }
    }
  }

  /** What every statistics record computed from a device list satisfies. */
  lemma StatsWellFormed(devices: seq<Device>, now: int)
    ensures var s := StatsOf(devices, now);
      && s.totalDevices == |devices|
      && s.onlineDevices + s.offlineDevices == s.totalDevices
      && s.onlineDevices == |ActiveIndices(devices)|
      && s.maintenanceDevices + s.errorDevices <= s.totalDevices
      && 0 <= s.uptimePercentage <= 100
      && (s.totalDevices == 0 ==> s.uptimePercentage == 0 && s.systemStatus == Warning)
      && s.lastUpdate == now
  {
    OnlineOfflinePartition(devices);
    MaintenanceAndErrorsBounded(devices);
    CountOnlineIsActiveIndices(devices);
  }

  /**
   * The map body of `getDashboardStats`: one pass over the devices with
   * four counters, then the derived fields.
   */
  method GetDashboardStats(devices: seq<Device>, now: int) returns (stats: DashboardStats)
    ensures stats == StatsOf(devices, now)
  {
    var online, offline, maintenance, errors := 0, 0, 0, 0;
    for i := 0 to |devices|
      invariant online == CountOnline(devices[..i])
      invariant offline == CountOffline(devices[..i])
      invariant maintenance == CountMaintenance(devices[..i])
      invariant errors == CountErrors(devices[..i])
    {
      assert devices[..i + 1][..i] == devices[..i];
      var device := devices[i];
      var status := ToUpper(device.status);
      if device.isActive {
        online := online + 1;
      } else {
        offline := offline + 1;
      }
      if status == "MAINTENANCE" || status == "MANUTENCAO" {
        maintenance := maintenance + 1;
      } else if status == "ERROR" || status == "ERRO" {
        errors := errors + 1;
      }
    }
    assert devices[..|devices|] == devices;
    var total := |devices|;
    stats := DashboardStats(
      total, online, offline, maintenance, errors,
      CalculateSystemStatus(online, total, errors),
      if total > 0 then RoundPercent(online, total) else 0,
      now);
  }

  /** `createFallbackStats`: the degraded statistics. */
  function CreateFallbackStats(now: int): DashboardStats {
    DashboardStats(0, 0, 0, 0, 0, Warning, 0, now)
  }

  /** The fallback is what an empty device list yields, up to the timestamp. */
  lemma FallbackIsEmptyListStats(now: int)
    ensures CreateFallbackStats(now) == StatsOf([], now)
  {
  }

  // ------------------------------------------------------------------
  // Grouping by key: the count dictionary and its first-occurrence order
  // ------------------------------------------------------------------

  /** `s.indexOf(k)` without the -1: the position of the first `k`, or `|s|` when there is none. */
  function IndexOf(s: seq<string>, k: string): (i: nat)
    ensures i <= |s|
    ensures i < |s| <==> k in s
    ensures i < |s| ==> s[i] == k
    ensures forall j :: 0 <= j < i ==> s[j] != k
    decreases |s|
  {
    if s == [] then 0 else if s[0] == k then 0 else 1 + IndexOf(s[1..], k)
  }

  /** The distinct keys of `keys`, in the order in which each first appears. */
  function FirstOccurrences(keys: seq<string>): (r: seq<string>)
    ensures forall k :: k in r <==> k in keys
    ensures forall i, j :: 0 <= i < j < |r| ==> r[i] != r[j]
    decreases |keys|
  {
    if keys == [] then []
    else
      var prefix := keys[..|keys| - 1];
      var last := keys[|keys| - 1];
      assert keys == prefix + [last];
      var r := FirstOccurrences(prefix);
      if last in r then r else r + [last]
  }

  /** How many entries of `keys` equal `k`. */
  function Occurrences(keys: seq<string>, k: string): (n: nat)
    ensures n <= |keys|
    ensures n > 0 <==> k in keys
    decreases |keys|
  {
    if keys == [] then 0
    else
      var prefix := keys[..|keys| - 1];
      assert keys == prefix + [keys[|keys| - 1]];
      Occurrences(prefix, k) + (if keys[|keys| - 1] == k then 1 else 0)
  }

  /** The sum, over the keys listed in `ks`, of their occurrences in `keys`. */
  function SumOccurrences(ks: seq<string>, keys: seq<string>): nat
    decreases |ks|
  {
    if ks == [] then 0 else SumOccurrences(ks[..|ks| - 1], keys) + Occurrences(keys, ks[|ks| - 1])
  }

  /** Extending a sequence does not move the first occurrence of a key it already holds. */
  lemma IndexOfPrefix(s: seq<string>, n: nat, k: string)
    requires n <= |s| && k in s[..n]
    ensures IndexOf(s[..n], k) == IndexOf(s, k)
  {
  }

  /** The distinct keys are listed in the order of their first occurrences. */
  lemma {:induction false} FirstOccurrencesInOrder(keys: seq<string>)
    ensures forall i, j :: 0 <= i < j < |FirstOccurrences(keys)| ==>
      IndexOf(keys, FirstOccurrences(keys)[i]) < IndexOf(keys, FirstOccurrences(keys)[j])
    decreases |keys|
  {
    if keys != [] {
      var n := |keys| - 1;
      var prefix := keys[..n];
      var r0 := FirstOccurrences(prefix);
      FirstOccurrencesInOrder(prefix);
      assert keys == prefix + [keys[n]];
      forall k | k in prefix
        ensures IndexOf(keys, k) == IndexOf(prefix, k)
      {
        IndexOfPrefix(keys, n, k);
      }
      var r := FirstOccurrences(keys);
      forall i, j | 0 <= i < j < |r|
        ensures IndexOf(keys, r[i]) < IndexOf(keys, r[j])
      {
        if j < |r0| {
          assert r[i] == r0[i] && r[j] == r0[j];
        } else {
          assert r[j] == keys[n] && r[i] == r0[i] && keys[n] !in prefix;
        }
      }
    }
  }

  lemma {:induction false} OccurrencesOfSnoc(keys: seq<string>, x: string, k: string)
    ensures Occurrences(keys + [x], k) == Occurrences(keys, k) + (if x == k then 1 else 0)
  {
    assert (keys + [x])[..|keys|] == keys;
  }

  lemma {:induction false} SumOccurrencesOfSnoc(ks: seq<string>, keys: seq<string>, x: string)
    ensures SumOccurrences(ks, keys + [x]) == SumOccurrences(ks, keys) + Occurrences(ks, x)
    decreases |ks|
  {
    if ks != [] {
      SumOccurrencesOfSnoc(ks[..|ks| - 1], keys, x);
      OccurrencesOfSnoc(keys, x, ks[|ks| - 1]);
    }
  }

  lemma {:induction false} OccurrencesInDistinct(ks: seq<string>, x: string)
    requires forall i, j :: 0 <= i < j < |ks| ==> ks[i] != ks[j]
    ensures Occurrences(ks, x) == if x in ks then 1 else 0
    decreases |ks|
  {
    if ks != [] {
      var prefix := ks[..|ks| - 1];
      OccurrencesInDistinct(prefix, x);
      assert ks == prefix + [ks[|ks| - 1]];
    }
  }

  /** The counts of the distinct keys add up to the number of keys. */
  lemma {:induction false} FirstOccurrencesCountAll(keys: seq<string>)
    ensures SumOccurrences(FirstOccurrences(keys), keys) == |keys|
    decreases |keys|
  {
    if keys != [] {
      var prefix := keys[..|keys| - 1];
      var x := keys[|keys| - 1];
      assert keys == prefix + [x];
      var r := FirstOccurrences(prefix);
      FirstOccurrencesCountAll(prefix);
      SumOccurrencesOfSnoc(r, prefix, x);
      OccurrencesInDistinct(r, x);
      if x !in r {
        assert (r + [x])[..|r|] == r;
        OccurrencesOfSnoc(prefix, x, x);
      }
    }
  }

  /**
   * The `forEach` that fills the count dictionary. A JavaScript object keeps
   * string keys in insertion order; `order` is that order, which
   * `Object.entries` then follows.
   */
  method CountByKey(keys: seq<string>) returns (order: seq<string>, counts: map<string, nat>)
    ensures order == FirstOccurrences(keys)
    ensures forall k :: k in counts <==> k in keys
    ensures forall k :: k in counts ==> counts[k] == Occurrences(keys, k)
  {
    order, counts := [], map[];
    for i := 0 to |keys|
      invariant order == FirstOccurrences(keys[..i])
      invariant forall k :: k in counts <==> k in keys[..i]
      invariant forall k :: k in counts ==> counts[k] == Occurrences(keys[..i], k)
    {
      assert keys[..i + 1] == keys[..i] + [keys[i]];
      var key := keys[i];
      var current := if key in counts then counts[key] else 0;
      if key !in counts {
        order := order + [key];
      }
      counts := counts[key := current + 1];
    }
    assert keys[..|keys|] == keys;
  }

  // ------------------------------------------------------------------
  // Distributions
  // ------------------------------------------------------------------

  /** Which dimension a distribution groups by; it decides the description table. */
  datatype Dimension = ByType | ByStatus

  function Describe(dimension: Dimension, key: string): string {
    match dimension
    case ByType => TypeDescription(key)
    case ByStatus => StatusDescription(key)
  }

  /** One entry of the `Object.entries(...).map(...)` step. */
  function DistributionEntry(key: string, count: nat, total: nat, dimension: Dimension): Distribution {
    Distribution(key, count, if total > 0 then RoundPercent(count, total) else 0, Describe(dimension, key))
  }

  /** The distribution of `keys`: one entry per distinct key, in first-occurrence order. */
  function DistributionOf(keys: seq<string>, dimension: Dimension): seq<Distribution> {
    var order := FirstOccurrences(keys);
    seq(|order|, i requires 0 <= i < |order| =>
      DistributionEntry(order[i], Occurrences(keys, order[i]), |keys|, dimension))
  }

  function TypeKeys(devices: seq<Device>): (keys: seq<string>)
    ensures |keys| == |devices|
  {
    seq(|devices|, i requires 0 <= i < |devices| => devices[i].deviceType)
  }

  /** `device.status || 'UNKNOWN'`. */
  function StatusKey(status: string): string {
    if status == "" then "UNKNOWN" else status
  }

  function StatusKeys(devices: seq<Device>): (keys: seq<string>)
    ensures |keys| == |devices|
  {
    seq(|devices|, i requires 0 <= i < |devices| => StatusKey(devices[i].status))
  }

  /** The map body of `getTypeDistribution`. */
  function TypeDistribution(devices: seq<Device>): seq<Distribution> {
    DistributionOf(TypeKeys(devices), ByType)
  }

  /** The map body of `getStatusDistribution`. */
  function StatusDistribution(devices: seq<Device>): seq<Distribution> {
    DistributionOf(StatusKeys(devices), ByStatus)
  }

  function SumCounts(d: seq<Distribution>): nat
    decreases |d|
  {
    if d == [] then 0 else SumCounts(d[..|d| - 1]) + d[|d| - 1].count
  }

  lemma {:induction false} SumCountsOfPrefix(keys: seq<string>, dimension: Dimension, m: nat)
    requires m <= |FirstOccurrences(keys)|
    ensures var d := DistributionOf(keys, dimension);
      SumCounts(d[..m]) == SumOccurrences(FirstOccurrences(keys)[..m], keys)
    decreases m
  {
    var d := DistributionOf(keys, dimension);
    var order := FirstOccurrences(keys);
    if m > 0 {
      SumCountsOfPrefix(keys, dimension, m - 1);
      assert d[..m][..m - 1] == d[..m - 1];
      assert order[..m][..m - 1] == order[..m - 1];
    }
  }

  /** Every device is counted exactly once: the counts add up to the number of devices. */
  lemma DistributionCountsSum(keys: seq<string>, dimension: Dimension)
    ensures SumCounts(DistributionOf(keys, dimension)) == |keys|
  {
    var d := DistributionOf(keys, dimension);
    SumCountsOfPrefix(keys, dimension, |d|);
    assert d[..|d|] == d;
    assert FirstOccurrences(keys)[..|d|] == FirstOccurrences(keys);
    FirstOccurrencesCountAll(keys);
  }

  /**
   * The categories of a distribution: one entry per distinct key, listed in
   * the order in which each key first occurs; none when there are no keys.
   */
  lemma DistributionCategories(keys: seq<string>, dimension: Dimension)
    ensures var d := DistributionOf(keys, dimension);
      && (keys == [] ==> d == [])
      && (forall k :: k in keys <==> exists i :: 0 <= i < |d| && d[i].category == k)
      && (forall i, j :: 0 <= i < j < |d| ==> d[i].category != d[j].category)
      && (forall i, j :: 0 <= i < j < |d| ==>
            IndexOf(keys, d[i].category) < IndexOf(keys, d[j].category))
  {
    var order := FirstOccurrences(keys);
    CategoriesAreFirstOccurrences(keys, dimension);
    FirstOccurrencesInOrder(keys);
    forall k | k in keys
      ensures exists i :: 0 <= i < |order| && order[i] == k
    {
    }
  }

  lemma CategoriesAreFirstOccurrences(keys: seq<string>, dimension: Dimension)
    ensures var d := DistributionOf(keys, dimension);
      |d| == |FirstOccurrences(keys)| && forall i :: 0 <= i < |d| ==> d[i].category == FirstOccurrences(keys)[i]
  {
  }

  /**
   * Each entry counts the devices with its key (so at least one), carries
   * that count's share of all devices rounded to a whole percentage, and the
   * description of its key.
   */
  lemma DistributionEntries(keys: seq<string>, dimension: Dimension)
    ensures var d := DistributionOf(keys, dimension);
      forall i :: 0 <= i < |d| ==>
        && d[i].count == Occurrences(keys, d[i].category)
        && 1 <= d[i].count
        && 0 <= d[i].percentage <= 100
        && 2 * |keys| * d[i].percentage - |keys| <= 200 * d[i].count < 2 * |keys| * d[i].percentage + |keys|
        && d[i].description == Describe(dimension, d[i].category)
  {
    var d := DistributionOf(keys, dimension);
    var order := FirstOccurrences(keys);
    forall i | 0 <= i < |d|
      ensures 1 <= d[i].count && 0 <= d[i].percentage <= 100
    {
      assert order[i] in keys;
    }
  }

  /** A missing status is grouped as 'UNKNOWN'; no status category is empty. */
  lemma StatusDistributionUnknown(devices: seq<Device>)
    ensures var d := StatusDistribution(devices);
      && (forall i :: 0 <= i < |d| ==> d[i].category != "")
      && ((exists j :: 0 <= j < |devices| && devices[j].status == "") ==>
            exists i :: 0 <= i < |d| && d[i].category == "UNKNOWN")
  {
    var keys := StatusKeys(devices);
    DistributionCategories(keys, ByStatus);
    forall k | k in keys
      ensures k != ""
    {
      var j :| 0 <= j < |keys| && keys[j] == k;
    }
    if exists j :: 0 <= j < |devices| && devices[j].status == "" {
      var j :| 0 <= j < |devices| && devices[j].status == "";
      assert keys[j] == "UNKNOWN";
      assert "UNKNOWN" in keys;
    }
  }

  /** `getTypeDistribution`'s map body: count per type, then one entry per type. */
  method GetTypeDistribution(devices: seq<Device>) returns (d: seq<Distribution>)
    ensures d == TypeDistribution(devices)
  {
    var keys := TypeKeys(devices);
    var order, counts := CountByKey(keys);
    d := seq(|order|, i requires 0 <= i < |order| =>
      DistributionEntry(order[i], counts[order[i]], |devices|, ByType));
  }

  /** `getStatusDistribution`'s map body: count per status ('UNKNOWN' when empty), then one entry per status. */
  method GetStatusDistribution(devices: seq<Device>) returns (d: seq<Distribution>)
    ensures d == StatusDistribution(devices)
  {
    var keys := StatusKeys(devices);
    var order, counts := CountByKey(keys);
    d := seq(|order|, i requires 0 <= i < |order| =>
      DistributionEntry(order[i], counts[order[i]], |devices|, ByStatus));
  }

  // ------------------------------------------------------------------
  // Description and colour tables
  // ------------------------------------------------------------------

  const TypeDescriptions: map<string, string> := map[
    "SENSOR" := "Sensores",
    "ACTUATOR" := "Atuadores",
    "GATEWAY" := "Gateways",
    "TRACKER" := "Rastreadores",
    "MONITOR" := "Monitores",
    "CONTROLLER" := "Controladores"]

  const StatusDescriptions: map<string, string> := map[
    "ACTIVE" := "Ativo",
    "ATIVO" := "Ativo",
    "INACTIVE" := "Inativo",
    "INATIVO" := "Inativo",
    "OFFLINE" := "Offline",
    "MAINTENANCE" := "Manutenção",
    "MANUTENCAO" := "Manutenção",
    "ERROR" := "Erro",
    "ERRO" := "Erro"]

  const StatusColors: map<string, string> := map[
    "ACTIVE" := "#28a745",
    "ATIVO" := "#28a745",
    "INACTIVE" := "#6c757d",
    "INATIVO" := "#6c757d",
    "OFFLINE" := "#fd7e14",
    "MAINTENANCE" := "#007bff",
    "MANUTENCAO" := "#007bff",
    "ERROR" := "#dc3545",
    "ERRO" := "#dc3545",
    "CONFIGURING" := "#6f42c1",
    "CONFIGURANDO" := "#6f42c1",
    "PENDING" := "#e83e8c",
    "PENDENTE" := "#e83e8c",
    "TESTING" := "#20c997",
    "TESTANDO" := "#20c997",
    "DISABLED" := "#adb5bd",
    "DESABILITADO" := "#adb5bd"]

  /** The colour of a status missing from the table. */
  const DefaultStatusColor := "#6c757d"

  /** `descriptions[type] || type`. */
  function TypeDescription(key: string): string {
    if key in TypeDescriptions then TypeDescriptions[key] else key
  }

  /** `descriptions[status] || status`. */
  function StatusDescription(key: string): string {
    if key in StatusDescriptions then StatusDescriptions[key] else key
  }

  /** `colors[status] || '#6c757d'`. */
  function StatusColor(key: string): string {
    if key in StatusColors then StatusColors[key] else DefaultStatusColor
  }

  predicate IsHexDigit(c: char) {
    '0' <= c <= '9' || 'a' <= c <= 'f'
  }

  /** A CSS colour of the form `#rrggbb`. */
  predicate IsHexColor(s: string) {
    |s| == 7 && s[0] == '#' && forall i :: 1 <= i < 7 ==> IsHexDigit(s[i])
  }

  /**
   * Every status gets a `#rrggbb` colour, '#6c757d' when it is not in the
   * table; a key without a description is labelled with itself.
   */
  lemma StatusLookupsTotal(key: string)
    ensures IsHexColor(StatusColor(key))
    ensures key !in StatusColors ==> StatusColor(key) == "#6c757d"
    ensures key !in StatusDescriptions ==> StatusDescription(key) == key
    ensures key !in TypeDescriptions ==> TypeDescription(key) == key
  {
    StatusColorsAreHex();
  }

  /** The English and Portuguese spellings of a status share a label and a colour. */
  lemma StatusSynonymsAgree()
    ensures StatusDescription("ACTIVE") == StatusDescription("ATIVO") == "Ativo"
    ensures StatusColor("ACTIVE") == StatusColor("ATIVO") == "#28a745"
    ensures StatusDescription("INACTIVE") == StatusDescription("INATIVO") == "Inativo"
    ensures StatusColor("INACTIVE") == StatusColor("INATIVO") == "#6c757d"
    ensures StatusDescription("MAINTENANCE") == StatusDescription("MANUTENCAO") == "Manutenção"
    ensures StatusColor("MAINTENANCE") == StatusColor("MANUTENCAO") == "#007bff"
    ensures StatusDescription("ERROR") == StatusDescription("ERRO") == "Erro"
    ensures StatusColor("ERROR") == StatusColor("ERRO") == "#dc3545"
  {
  }

  lemma StatusColorsAreHex()
    ensures forall k :: k in StatusColors ==> IsHexColor(StatusColors[k])
  {
    assert IsHexColor("#28a745") && IsHexColor("#6c757d") && IsHexColor("#fd7e14") && IsHexColor("#007bff");
    assert IsHexColor("#dc3545") && IsHexColor("#6f42c1") && IsHexColor("#e83e8c") && IsHexColor("#20c997");
    assert IsHexColor("#adb5bd");
  }

  // ------------------------------------------------------------------
  // Chart projections
  // ------------------------------------------------------------------

  const TypePalette: seq<string> := [
    "#007bff", "#28a745", "#fd7e14", "#dc3545", "#6f42c1",
    "#e83e8c", "#20c997", "#ffc107", "#6c757d", "#17a2b8"]

  const TypeBorderColors: seq<string> := ["#fff", "#fff", "#fff", "#fff", "#fff", "#fff", "#fff", "#fff", "#fff", "#fff"]

  /** `distribution.map(d => d.count)`. */
  function Counts(d: seq<Distribution>): (data: seq<int>)
    ensures |data| == |d|
    ensures forall i :: 0 <= i < |d| ==> data[i] == d[i].count
    decreases |d|
  {
    if d == [] then [] else Counts(d[..|d| - 1]) + [d[|d| - 1].count]
  }

  function SumInts(xs: seq<int>): int
    decreases |xs|
  {
    if xs == [] then 0 else SumInts(xs[..|xs| - 1]) + xs[|xs| - 1]
  }

  lemma {:induction false} SumOfCounts(d: seq<Distribution>)
    ensures SumInts(Counts(d)) == SumCounts(d)
    decreases |d|
  {
    if d != [] {
      SumOfCounts(d[..|d| - 1]);
      var c := Counts(d);
      assert c[..|c| - 1] == Counts(d[..|d| - 1]);
    }
  }

  /** `createTypeChart`: labels and data follow the distribution; the colours are the fixed palette. */
  function CreateTypeChart(d: seq<Distribution>): ChartData {
    ChartData(
      seq(|d|, i requires 0 <= i < |d| => TypeDescription(d[i].category)),
      [Dataset(Counts(d), TypePalette, 2, TypeBorderColors)])
  }

  /** `createStatusChart`: labels, data and both colour lists follow the distribution. */
  function CreateStatusChart(d: seq<Distribution>): ChartData {
    ChartData(
      seq(|d|, i requires 0 <= i < |d| => StatusDescription(d[i].category)),
      [Dataset(
        Counts(d),
        seq(|d|, i requires 0 <= i < |d| => StatusColor(d[i].category)),
        2,
        seq(|d|, i requires 0 <= i < |d| => "#fff"))])
  }

  /**
   * The type chart of the devices: one dataset; labels and data parallel to
   * the type distribution, each label the entry's own description, the data
   * adding up to the number of devices; the colours the fixed ten-entry
   * palette, whatever the number of types.
   */
  lemma TypeChartOfDevices(devices: seq<Device>)
    ensures var d := TypeDistribution(devices);
      var c := CreateTypeChart(d);
      && |c.datasets| == 1
      && |c.labels| == |c.datasets[0].data| == |d|
      && (forall i :: 0 <= i < |d| ==> c.labels[i] == d[i].description && c.datasets[0].data[i] == d[i].count)
      && SumInts(c.datasets[0].data) == |devices|
      && c.datasets[0].backgroundColor == TypePalette && |TypePalette| == 10
      && c.datasets[0].borderColor == TypeBorderColors && |TypeBorderColors| == 10
  {
    var d := TypeDistribution(devices);
    DistributionEntries(TypeKeys(devices), ByType);
    DistributionCountsSum(TypeKeys(devices), ByType);
    SumOfCounts(d);
  }

  /**
   * The status chart of the devices: one dataset; labels, data and both
   * colour lists parallel to the status distribution, each label the entry's
   * description and each colour its status's `#rrggbb` colour, the data
   * adding up to the number of devices.
   */
  lemma StatusChartOfDevices(devices: seq<Device>)
    ensures var d := StatusDistribution(devices);
      var c := CreateStatusChart(d);
      && |c.datasets| == 1
      && |c.labels| == |c.datasets[0].data| == |c.datasets[0].backgroundColor| == |c.datasets[0].borderColor| == |d|
      && (forall i :: 0 <= i < |d| ==>
            && c.labels[i] == d[i].description
            && c.datasets[0].data[i] == d[i].count
            && c.datasets[0].backgroundColor[i] == StatusColor(d[i].category)
            && IsHexColor(c.datasets[0].backgroundColor[i]))
      && SumInts(c.datasets[0].data) == |devices|
  {
    var d := StatusDistribution(devices);
    DistributionEntries(StatusKeys(devices), ByStatus);
    DistributionCountsSum(StatusKeys(devices), ByStatus);
    SumOfCounts(d);
    forall i | 0 <= i < |d|
      ensures IsHexColor(StatusColor(d[i].category))
    {
      StatusLookupsTotal(d[i].category);
    }
  }

  // ------------------------------------------------------------------
  // Cards
  // ------------------------------------------------------------------

  /** The service's own label for the system status (the card value). */
  function SystemStatusText(status: SystemStatus): string {
    match status
    case Healthy => "Saudável"
    case Warning => "Atenção"
    case Critical => "Crítico"
    case Error => "Erro"
  }

  function SystemStatusIcon(status: SystemStatus): string {
    match status
    case Healthy => "check_circle"
    case Warning => "warning"
    case Critical => "error"
    case Error => "cancel"
  }

  function SystemStatusColor(status: SystemStatus): CardColor {
    match status
    case Healthy => Success
    case Warning => Caution
    case Critical => Danger
    case Error => Danger
  }

  const CardTitles: seq<string> := [
    "Total de Dispositivos", "Dispositivos Online", "Dispositivos Offline",
    "Em Manutenção", "Com Erro", "Status do Sistema"]

  /** `createDashboardCards`: the six cards, in their fixed order. */
  function CreateDashboardCards(stats: DashboardStats): (cards: seq<DashboardCard>)
    ensures |cards| == |CardTitles| == 6
    ensures forall i :: 0 <= i < 6 ==> cards[i].title == CardTitles[i]
  {
    var total := stats.totalDevices;
    var uptime := IntToString(stats.uptimePercentage);
    [
      DashboardCard(CardTitles[0], IntToString(total), "devices", Primary,
        Trend(Stable, 0, "Cadastrados no sistema")),
      DashboardCard(CardTitles[1], IntToString(stats.onlineDevices), "wifi", Success,
        Trend(if stats.onlineDevices > 0 then Up else Down, stats.uptimePercentage, uptime + "% de uptime")),
      DashboardCard(CardTitles[2], IntToString(stats.offlineDevices), "wifi_off", Caution,
        Trend(if stats.offlineDevices > 0 then Down else Stable,
          RoundPercent(stats.offlineDevices, if total > 1 then total else 1), "Precisam de atenção")),
      DashboardCard(CardTitles[3], IntToString(stats.maintenanceDevices), "build", Info,
        Trend(Stable, 0, "Programada")),
      DashboardCard(CardTitles[4], IntToString(stats.errorDevices), "error", Danger,
        Trend(if stats.errorDevices > 0 then Down else Stable,
          RoundPercent(stats.errorDevices, if total > 1 then total else 1), "Requerem intervenção")),
      DashboardCard(CardTitles[5], SystemStatusText(stats.systemStatus), SystemStatusIcon(stats.systemStatus),
        SystemStatusColor(stats.systemStatus),
        Trend(if stats.systemStatus == Healthy then Up else Down, stats.uptimePercentage, uptime + "% operacional"))
    ]
  }

  /**
   * What the cards tell the operator: each count card's value reads back as
   * its count, the online card points up exactly when a device is online,
   * the system card points up exactly when the system is healthy.
   */
  lemma CardsReflectStats(stats: DashboardStats)
    ensures var cards := CreateDashboardCards(stats);
      && DecimalValue(cards[0].value) == stats.totalDevices
      && DecimalValue(cards[1].value) == stats.onlineDevices
      && DecimalValue(cards[2].value) == stats.offlineDevices
      && DecimalValue(cards[3].value) == stats.maintenanceDevices
      && DecimalValue(cards[4].value) == stats.errorDevices
      && (cards[1].trend.direction == Up <==> stats.onlineDevices > 0)
      && (cards[5].trend.direction == Up <==> stats.systemStatus == Healthy)
      && cards[5].value == SystemStatusText(stats.systemStatus)
  {
    IntToStringRoundTrip(stats.totalDevices);
    IntToStringRoundTrip(stats.onlineDevices);
    IntToStringRoundTrip(stats.offlineDevices);
    IntToStringRoundTrip(stats.maintenanceDevices);
    IntToStringRoundTrip(stats.errorDevices);
  }

  /**
   * For statistics computed from a device list, the offline and error trend
   * percentages are the offline and error shares of max(total, 1), rounded
   * half up, so in 0..100; the online (uptime) and offline percentages,
   * rounded separately, add up to 100 or 101 when there are devices; with
   * no devices all three are 0.
   */
  lemma CardPercentagesOfDeviceList(devices: seq<Device>, now: int)
    ensures var stats := StatsOf(devices, now);
      var cards := CreateDashboardCards(stats);
      var m := if |devices| > 1 then |devices| else 1;
      && 2 * m * cards[2].trend.percentage - m <= 200 * stats.offlineDevices < 2 * m * cards[2].trend.percentage + m
      && 2 * m * cards[4].trend.percentage - m <= 200 * stats.errorDevices < 2 * m * cards[4].trend.percentage + m
      && 0 <= cards[2].trend.percentage <= 100
      && 0 <= cards[4].trend.percentage <= 100
      && (|devices| > 0 ==> 100 <= cards[1].trend.percentage + cards[2].trend.percentage <= 101)
      && (|devices| == 0 ==> cards[1].trend.percentage == 0 && cards[2].trend.percentage == 0 && cards[4].trend.percentage == 0)
  {
    var stats := StatsOf(devices, now);
    StatsWellFormed(devices, now);
    if |devices| > 0 {
      RoundedComplementaryShares(stats.onlineDevices, stats.offlineDevices, stats.totalDevices);
    }
  }

  /** Two shares of a whole, each rounded half up, add up to 100 or 101 percent. */
  lemma RoundedComplementaryShares(a: nat, b: nat, t: nat)
    requires t > 0 && a + b == t
    ensures 100 <= RoundPercent(a, t) + RoundPercent(b, t) <= 101
  {
    var u := RoundPercent(a, t);
    var v := RoundPercent(b, t);
    assert 200 * t < 2 * t * (u + v + 1) by {
      assert 2 * t * (u + v + 1) == 2 * t * u + 2 * t * v + 2 * t;
    }
    assert 2 * t * (u + v - 1) < 2 * t * 101 by {
      assert 2 * t * (u + v - 1) == 2 * t * u + 2 * t * v - 2 * t;
    }
    CancelPositiveFactor(2 * t, 100, u + v + 1);
    CancelPositiveFactor(2 * t, u + v - 1, 101);
  }

  // ------------------------------------------------------------------
  // The combined dashboard data
  // ------------------------------------------------------------------

  datatype DashboardData = DashboardData(
    stats: DashboardStats,
    typeDistribution: seq<Distribution>,
    statusDistribution: seq<Distribution>,
    alerts: seq<DeviceAlert>,
    cards: seq<DashboardCard>,
    typeChart: ChartData,
    statusChart: ChartData)

  /**
   * The `map` of `getDashboardData`. The statistics and the two
   * distributions each come from their own `getAllDevices` subscription, so
   * each gets its own device list.
   */
  function GetDashboardData(statsDevices: seq<Device>, typeDevices: seq<Device>, statusDevices: seq<Device>,
                            alerts: seq<DeviceAlert>, now: int): DashboardData
  {
    var stats := StatsOf(statsDevices, now);
    var typeDistribution := TypeDistribution(typeDevices);
    var statusDistribution := StatusDistribution(statusDevices);
    DashboardData(stats, typeDistribution, statusDistribution, alerts,
      CreateDashboardCards(stats), CreateTypeChart(typeDistribution), CreateStatusChart(statusDistribution))
  }

  /**
   * When the three fetches return the same list, the parts agree: both
   * distributions and both charts account for exactly `totalDevices` devices.
   */
  lemma DashboardDataConsistent(devices: seq<Device>, alerts: seq<DeviceAlert>, now: int)
    ensures var data := GetDashboardData(devices, devices, devices, alerts, now);
      && SumCounts(data.typeDistribution) == data.stats.totalDevices
      && SumCounts(data.statusDistribution) == data.stats.totalDevices
      && SumInts(data.typeChart.datasets[0].data) == data.stats.totalDevices
      && SumInts(data.statusChart.datasets[0].data) == data.stats.totalDevices
      && data.stats.onlineDevices + data.stats.offlineDevices == data.stats.totalDevices
  {
    var stats := StatsOf(devices, now);
    var td := TypeDistribution(devices);
    var sd := StatusDistribution(devices);
    assert GetDashboardData(devices, devices, devices, alerts, now) == DashboardData(stats, td, sd, alerts,
      CreateDashboardCards(stats), CreateTypeChart(td), CreateStatusChart(sd));
    DistributionCountsSum(TypeKeys(devices), ByType);
    DistributionCountsSum(StatusKeys(devices), ByStatus);
    TypeChartOfDevices(devices);
    StatusChartOfDevices(devices);
    StatsWellFormed(devices, now);
  }

  // ------------------------------------------------------------------
  // The service's DashboardState
  // ------------------------------------------------------------------

  /** A `Partial<DashboardState>`: the fields an update supplies. */
  datatype StatePatch = StatePatch(
    isLoading: Option<bool>,
    lastUpdate: Option<int>,
    hasError: Option<bool>,
    errorMessage: Option<string>,
    autoRefresh: Option<bool>,
    refreshInterval: Option<int>)

  const EmptyPatch := StatePatch(None, None, None, None, None, None)

  function PatchedOr<T>(patched: Option<T>, current: T): T {
    match patched
    case Some(v) => v
    case None => current
  }

  /** The part of DashboardService that changes: the current DashboardState. */
  class DashboardService {
    var state: DashboardState

    constructor (now: int)
      ensures state == DashboardState(false, now, false, None, true, 30)
    {
      state := DashboardState(false, now, false, None, true, 30);
    }

    /** `{...current, ...patch, lastUpdate: now}`. */
    method UpdateDashboardState(patch: StatePatch, now: int)
      modifies this
      ensures state.isLoading == PatchedOr(patch.isLoading, old(state.isLoading))
      ensures state.hasError == PatchedOr(patch.hasError, old(state.hasError))
      ensures state.errorMessage == (if patch.errorMessage.Some? then patch.errorMessage else old(state.errorMessage))
      ensures state.autoRefresh == PatchedOr(patch.autoRefresh, old(state.autoRefresh))
      ensures state.refreshInterval == PatchedOr(patch.refreshInterval, old(state.refreshInterval))
      ensures state.lastUpdate == now
    {
      var current := state;
      state := DashboardState(
        PatchedOr(patch.isLoading, current.isLoading),
        now,
        PatchedOr(patch.hasError, current.hasError),
        if patch.errorMessage.Some? then patch.errorMessage else current.errorMessage,
        PatchedOr(patch.autoRefresh, current.autoRefresh),
        PatchedOr(patch.refreshInterval, current.refreshInterval));
    }

    method SetLoading(isLoading: bool, now: int)
      modifies this
      ensures state == old(state).(isLoading := isLoading, lastUpdate := now)
    {
      UpdateDashboardState(EmptyPatch.(isLoading := Some(isLoading)), now);
    }

    method SetError(hasError: bool, now: int)
      modifies this
      ensures state == old(state).(hasError := hasError, lastUpdate := now)
    {
      UpdateDashboardState(EmptyPatch.(hasError := Some(hasError)), now);
    }

    method SetAutoRefresh(enabled: bool, now: int)
      modifies this
      ensures state == old(state).(autoRefresh := enabled, lastUpdate := now)
    {
      UpdateDashboardState(EmptyPatch.(autoRefresh := Some(enabled)), now);
    }

    /** Flips `autoRefresh` and nothing else but the timestamp; twice restores it. */
    method ToggleAutoRefresh(now: int)
      modifies this
      ensures state == old(state).(autoRefresh := !old(state.autoRefresh), lastUpdate := now)
    {
      var current := state;
      UpdateDashboardState(EmptyPatch.(autoRefresh := Some(!current.autoRefresh)), now);
    }

    /**
     * `refreshDashboard`: loading on, then the outcome of the data stream:
     * loading off and a fresh timestamp, or loading off and the error flag
     * raised. A success never lowers a raised error flag.
     */
    method RefreshDashboard(outcome: Fetch<DashboardData>, start: int, settled: int, finished: int)
      modifies this
      ensures !state.isLoading
      ensures state.hasError == (outcome.Failed? || old(state.hasError))
      ensures state.autoRefresh == old(state.autoRefresh)
      ensures state.refreshInterval == old(state.refreshInterval)
      ensures state.errorMessage == old(state.errorMessage)
      ensures state.lastUpdate == finished
    {
      SetLoading(true, start);
      match outcome {
        case Loaded(_) =>
          SetLoading(false, settled);
          UpdateDashboardState(EmptyPatch.(lastUpdate := Some(finished)), finished);
        case Failed =>
          SetLoading(false, settled);
          SetError(true, finished);
      }
    }
  }
}
