/**
 * The records of the IoT dashboard (device.model.ts and dashboard.model.ts).
 * They carry no behaviour. Timestamps and clock readings are epoch
 * milliseconds; a device's `status` and `deviceType` are the backend's free
 * strings, with "" standing for a missing (falsy) value.
 */
module Models {

  datatype Option<T> = None | Some(value: T)

  /** What a subscription delivers: a `next` value, or an `error`. */
  datatype Fetch<T> = Loaded(value: T) | Failed

  datatype Device = Device(
    id: int,
    deviceName: string,
    deviceIdentifier: string,
    deviceType: string,
    status: string,
    location: string,
    description: string,
    lastReading: Option<string>,
    lastCommunication: Option<string>,
    isActive: bool,
    latitude: Option<real>,
    longitude: Option<real>,
    createdAt: string,
    updatedAt: string)

  /** The system-health classification `'HEALTHY' | 'WARNING' | 'CRITICAL' | 'ERROR'`. */
  datatype SystemStatus = Healthy | Warning | Critical | Error {
    function Name(): string {
      match this
      case Healthy => "HEALTHY"
      case Warning => "WARNING"
      case Critical => "CRITICAL"
      case Error => "ERROR"
    }
  }

  datatype DashboardStats = DashboardStats(
    totalDevices: nat,
    onlineDevices: nat,
    offlineDevices: nat,
    maintenanceDevices: nat,
    errorDevices: nat,
    systemStatus: SystemStatus,
    uptimePercentage: int,
    lastUpdate: int)

  /**
   * One entry of a StatusDistribution or TypeDistribution list; both
   * interfaces have this shape, `category` being the status or the type.
   */
  datatype Distribution = Distribution(
    category: string,
    count: nat,
    percentage: int,
    description: string)

  datatype Dataset = Dataset(
    data: seq<int>,
    backgroundColor: seq<string>,
    borderWidth: int,
    borderColor: seq<string>)

  datatype ChartData = ChartData(labels: seq<string>, datasets: seq<Dataset>)

  datatype CardColor = Primary | Success | Caution | Danger | Info {
    /** The colour name used in the card interface. */
    function Name(): string {
      match this
      case Primary => "primary"
      case Success => "success"
      case Caution => "warning"
      case Danger => "danger"
      case Info => "info"
    }
  }

  datatype TrendDirection = Up | Down | Stable

  datatype Trend = Trend(direction: TrendDirection, percentage: int, description: string)

  datatype DashboardCard = DashboardCard(
    title: string,
    value: string,
    icon: string,
    color: CardColor,
    trend: Trend)

  datatype DashboardState = DashboardState(
    isLoading: bool,
    lastUpdate: int,
    hasError: bool,
    errorMessage: Option<string>,
    autoRefresh: bool,
    refreshInterval: int)

  /**
   * An alert. Only `isAcknowledged` is ever written after creation (by the
   * alerts component, in place), so it is the one mutable field.
   */
  class DeviceAlert {
    const id: int
    const deviceId: int
    const deviceName: string
    const alertType: string
    const severity: string
    const message: string
    const description: string
    const timestamp: int
    const durationMinutes: Option<int>
    const recommendedAction: Option<string>
    var isAcknowledged: bool

    constructor (id: int, deviceId: int, deviceName: string, alertType: string, severity: string,
                 message: string, description: string, timestamp: int,
                 durationMinutes: Option<int>, recommendedAction: Option<string>, isAcknowledged: bool)
      ensures this.id == id && this.deviceId == deviceId && this.deviceName == deviceName
      ensures this.alertType == alertType && this.severity == severity
      ensures this.message == message && this.description == description
      ensures this.timestamp == timestamp && this.durationMinutes == durationMinutes
      ensures this.recommendedAction == recommendedAction && this.isAcknowledged == isAcknowledged
    {
      this.id := id;
      this.deviceId := deviceId;
      this.deviceName := deviceName;
      this.alertType := alertType;
      this.severity := severity;
      this.message := message;
      this.description := description;
      this.timestamp := timestamp;
      this.durationMinutes := durationMinutes;
      this.recommendedAction := recommendedAction;
      this.isAcknowledged := isAcknowledged;
    }
  }
}
