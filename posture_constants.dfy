/** Protocol bytes, classifier thresholds, default user thresholds and the
    severity of each posture (constants/posture.ts). */
module PostureConstants {
  import opened CushionTypes

  /** Severity shown for a posture; `NoLevel` is the source's 'none'. */
  datatype Level = NoLevel | Good | Warn | Bad

  /** The `level` entry of POSTURE_INFO. */
  function PostureLevel(p: PostureType): Level {
    match p
    case Unseated => NoLevel
    case Normal => Good
    case LeanLeft => Warn
    case LeanRight => Warn
    case CrossLegLeft => Bad
    case CrossLegRight => Bad
    case LeanForward => Bad
  }

  /** Each level is taken by exactly the postures the table gives it. */
  lemma PostureLevels(p: PostureType)
    ensures PostureLevel(p) == NoLevel <==> p == Unseated
    ensures PostureLevel(p) == Good <==> p == Normal
    ensures PostureLevel(p) == Warn <==> p == LeanLeft || p == LeanRight
    ensures PostureLevel(p) == Bad <==> p == CrossLegLeft || p == CrossLegRight || p == LeanForward
  {
  }

  // Wire framing (BT_PROTOCOL)
  const FRAME_HEADER: Byte := 0xAA
  const FRAME_TAIL: Byte := 0x55

  // Uplink commands (device to phone)
  const CMD_SENSOR_DATA: Byte := 0x01
  const CMD_DEVICE_STATUS: Byte := 0x02
  const CMD_POSTURE_ALERT: Byte := 0x03

  // Downlink commands (phone to device)
  const CMD_HEATING_ON: Byte := 0x10
  const CMD_HEATING_OFF: Byte := 0x11
  const CMD_FAN_ON: Byte := 0x12
  const CMD_FAN_OFF: Byte := 0x13
  const CMD_SET_THRESHOLDS: Byte := 0x14
  const CMD_QUERY_STATUS: Byte := 0x15

  const UPLINK_COMMANDS: seq<Byte> := [CMD_SENSOR_DATA, CMD_DEVICE_STATUS, CMD_POSTURE_ALERT]
  const DOWNLINK_COMMANDS: seq<Byte> :=
    [CMD_HEATING_ON, CMD_HEATING_OFF, CMD_FAN_ON, CMD_FAN_OFF, CMD_SET_THRESHOLDS, CMD_QUERY_STATUS]

  /** The nine command codes are pairwise distinct, none is the header or the
      tail byte, uplink codes lie in 0x01..0x03 and downlink codes in 0x10..0x15. */
  lemma CommandCodes()
    ensures forall i, j :: 0 <= i < j < |UPLINK_COMMANDS + DOWNLINK_COMMANDS| ==>
      (UPLINK_COMMANDS + DOWNLINK_COMMANDS)[i] != (UPLINK_COMMANDS + DOWNLINK_COMMANDS)[j]
    ensures forall c :: c in UPLINK_COMMANDS + DOWNLINK_COMMANDS ==> c != FRAME_HEADER && c != FRAME_TAIL
    ensures forall c :: c in UPLINK_COMMANDS ==> 0x01 <= c <= 0x03
    ensures forall c :: c in DOWNLINK_COMMANDS ==> 0x10 <= c <= 0x15
  {
  }

  // Classifier thresholds (PRESSURE_THRESHOLDS)
  const MIN_SIT_PRESSURE: nat := 50
  const CROSS_LEG_RATIO: real := 0.75
  const LEAN_RATIO: real := 0.65
  const FORWARD_RATIO: real := 0.70

  /** Generic lean is the weakest signal and cross-leg the strongest. */
  lemma RatioThresholdsOrdered()
    ensures 0.5 < LEAN_RATIO < FORWARD_RATIO < CROSS_LEG_RATIO < 1.0
    ensures MIN_SIT_PRESSURE == 50
  {
  }

  const DEFAULT_THRESHOLDS: ThresholdSettings := ThresholdSettings(
    tempMin := 22,
    tempMax := 28,
    humidityMax := 70,
    humidityMin := 55,
    sittingDurationMax := 45,
    postureAlertDelay := 5)

  /** The defaults leave a band between the low and high marks of both pairs. */
  lemma DefaultThresholdsOrdered()
    ensures DEFAULT_THRESHOLDS.tempMin < DEFAULT_THRESHOLDS.tempMax
    ensures DEFAULT_THRESHOLDS.humidityMin < DEFAULT_THRESHOLDS.humidityMax
    ensures DEFAULT_THRESHOLDS.postureAlertDelay == 5 && DEFAULT_THRESHOLDS.sittingDurationMax == 45
  {
  }
}
