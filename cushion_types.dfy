/** The value types of the cushion app (types/index.ts). */
module CushionTypes {
  import opened Wrappers

  /** A wire byte. */
  type Byte = x: int | 0 <= x < 256

  /** The seven posture labels. `Unseated` is the source's 'none'. */
  datatype PostureType =
    | Unseated
    | Normal
    | LeanLeft
    | LeanRight
    | CrossLegLeft
    | CrossLegRight
    | LeanForward

  datatype DeviceStatus = DeviceStatus(
    isConnected: bool,
    deviceName: string,
    deviceId: string,
    batteryLevel: int,
    signalStrength: int)

  /** A `Partial<DeviceStatus>`: `None` is a key the caller left out. */
  datatype DevicePatch = DevicePatch(
    isConnected: Option<bool>,
    deviceName: Option<string>,
    deviceId: Option<string>,
    batteryLevel: Option<int>,
    signalStrength: Option<int>)

  /** One reading of the four pressure channels, temperature (degrees C),
      relative humidity (%) and the capture time in milliseconds. */
  datatype SensorData = SensorData(
    pressureLeftFront: nat,
    pressureRightFront: nat,
    pressureLeftBack: nat,
    pressureRightBack: nat,
    temperature: real,
    humidity: real,
    timestamp: int)

  /** The classifier's verdict on one reading. */
  datatype PostureAnalysis = PostureAnalysis(
    posture: PostureType,
    leftRatio: real,
    rightRatio: real,
    frontRatio: real,
    backRatio: real,
    totalPressure: nat,
    confidence: real)

  datatype DeviceControl = DeviceControl(heatingOn: bool, fanOn: bool)

  /** User thresholds; `sittingDurationMax` is in minutes, `postureAlertDelay` in seconds. */
  datatype ThresholdSettings = ThresholdSettings(
    tempMin: int,
    tempMax: int,
    humidityMax: int,
    humidityMin: int,
    sittingDurationMax: int,
    postureAlertDelay: int)

  /** A `Partial<ThresholdSettings>`. */
  datatype ThresholdPatch = ThresholdPatch(
    tempMin: Option<int>,
    tempMax: Option<int>,
    humidityMax: Option<int>,
    humidityMin: Option<int>,
    sittingDurationMax: Option<int>,
    postureAlertDelay: Option<int>)

  /** Seconds spent in each seated posture during one session. */
  datatype PostureBreakdown = PostureBreakdown(
    normal: real,
    leanLeft: real,
    leanRight: real,
    crossLegLeft: real,
    crossLegRight: real,
    leanForward: real)

  /** One archived sitting session. */
  datatype HistoryRecord = HistoryRecord(
    id: string,
    date: string,
    startTime: int,
    endTime: int,
    duration: real,
    postureBreakdown: PostureBreakdown,
    avgTemperature: real,
    avgHumidity: real,
    alertCount: int)

  /** One point of the temperature/humidity chart. */
  datatype TempHumidityPoint = TempHumidityPoint(time: string, temperature: real, humidity: real)
}
