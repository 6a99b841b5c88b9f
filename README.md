# Smart-cushion device link, modelled in Dafny

This project models the core of the smart-cushion companion app: the serial
frame codec that talks to the cushion's sensor board, the posture classifier
that turns one pressure reading into a posture label, and the cushion state
store whose actions update the current reading, occupancy, device and control
flags, user thresholds, the two bounded history lists and the daily alert
counter.

Files and modules:

- `wrappers.dfy` (`Wrappers`): `Option` (the source's `null` / omitted argument, with `GetOr` for `??`) and `Result`.
- `cushion_types.dfy` (`CushionTypes`): the records of `types/index.ts` as datatypes; `Byte` is an integer in 0..255.
- `posture_constants.dfy` (`PostureConstants`): `BT_PROTOCOL`, `PRESSURE_THRESHOLDS`, `DEFAULT_THRESHOLDS` and the severity level of `POSTURE_INFO`.
- `bluetooth_service.dfy` (`BluetoothService`): checksum, frame encoder, the fixed command builders and the sensor-frame decoder.
- `cushion_store.dfy` (`CushionStore`): `analyzePosture` as a pure function over `real`, the occupancy and sitting-start transitions, the bounded lists, and the store as the class `CushionState` whose methods update its fields.

How the model reads the source:

- `calcChecksum` is a loop; `CalcChecksum` keeps the loop and is proved to return the byte sum modulo 256 (`Checksum`), the function the encoder and decoder use.
- The decoder returns `null` in the source. `Decode` keeps which `return null` fired (`Rejection`) so that the order of the tests can be stated. `ParseSensorFrame` is the source's `null`-returning view of it. The tail byte is tested before the checksum, as the code does. The decoder reads the frame from index 0 and ignores any bytes after the tail.
- `Date.now()` is the parameter `now`.
- The classifier's ratios are exact `real`s. `PostureMatchesIntegerRules` shows the labels equal those of integer cross-multiplication (`4 * left > 3 * total`), so the strict boundaries are exact.
- Occupancy (`isSeated`) is `total > 50`, while the classifier's empty-seat test is `total < 50`. At a total of exactly 50 the reading gets a posture other than `none` but the store is not seated (`OccupancyVersusPosture`).
- The store's initial `currentPosture` has confidence 0, whereas `analyzePosture` of the initial all-zero reading has confidence 1. The invariant `Valid()` therefore does not tie `currentPosture` to `sensorData`.

## Model

| member | source | states |
|---|---|---|
| `BluetoothService.CalcChecksum` | services/bluetoothService.ts:17-23 | the loop that masks the running sum to a byte after each addition returns the whole byte sum modulo 256 |
| `BluetoothService.BuildControlFrame` | services/bluetoothService.ts:26-36 | the frame is `|data| + 5` bytes: 0xAA, the command, the payload length, the payload, the checksum of command, length and payload, and 0x55 |
| `BluetoothService.BuildHeatingCommand` | services/bluetoothService.ts:70-74 | heating on is exactly `AA 10 00 10 55`, heating off `AA 11 00 11 55` |
| `BluetoothService.BuildFanCommand` | services/bluetoothService.ts:77-81 | fan on is exactly `AA 12 00 12 55`, fan off `AA 13 00 13 55` |
| `BluetoothService.LowByte` | services/bluetoothService.ts:92 | `x & 0xFF` is the byte congruent to `x` modulo 256, and a byte is kept as it is |
| `BluetoothService.BuildThresholdFrame` | services/bluetoothService.ts:84-94 | a 10-byte frame with command 0x14 and length 5; the payload holds the four environment thresholds unchanged and the sitting limit modulo 256; the checksum byte is the sum of the body modulo 256 |
| `BluetoothService.BigEndian16` | services/bluetoothService.ts:57-60 | a pressure is a 16-bit value whose high byte is the first payload byte of the pair and whose low byte is the second |
| `BluetoothService.ShiftOrIsSum` | services/bluetoothService.ts:57-60 | on 32-bit words holding bytes, `(hi << 8) \| lo` equals `hi * 256 + lo` |
| `BluetoothService.ReadingOf` | services/bluetoothService.ts:55-64 | the four pressures are the big-endian 16-bit values of payload bytes 0-1, 2-3, 4-5 and 6-7 (high byte, low byte), each in 0..65535; temperature and humidity are bytes 8 and 9; the timestamp is the decode-time clock |
| `BluetoothService.Decode` | services/bluetoothService.ts:39-67 | too short exactly when under 6 bytes; a wrong header after that is rejected as such; an accepted frame has header 0xAA, command 0x01, a declared length of at least 10 that the input holds, the tail 0x55 after the checksum and a checksum byte equal to the byte sum of command, length and payload modulo 256, and its reading is the one the payload carries; a payload under 10 bytes is the last rejection |
| `BluetoothService.ParseSensorFrame` | services/bluetoothService.ts:39-67 | null for fewer than 6 bytes, a wrong header, a command other than 0x01, or fewer bytes than the declared length needs; when a reading is returned, the declared length is at least 10, every pressure is in 0..65535 and the timestamp is the decode-time clock |
| `BluetoothService.RoundTrip` | services/bluetoothService.ts:39-66 | decoding an encoded sensor frame with a payload of 10 to 255 bytes, followed by any bytes, yields the big-endian pressures of payload bytes 0-7 and the temperature and humidity of bytes 8 and 9 |
| `BluetoothService.AcceptedIsEncoded` | services/bluetoothService.ts:39-66 | every accepted input begins with exactly the frame the encoder builds for its own payload, and the reading is that payload's |
| `BluetoothService.ShortPayloadRejected` | services/bluetoothService.ts:55-66 | a well-formed sensor frame whose payload is under 10 bytes is refused as too short |
| `BluetoothService.OtherCommandRejected` | services/bluetoothService.ts:40-42 | a frame built with any command other than 0x01 is refused, as an unexpected command once it is at least 6 bytes long |
| `BluetoothService.PrefixRejected` | services/bluetoothService.ts:44-45 | a partial read of a sensor frame of at least 6 bytes is refused as truncated |
| `BluetoothService.PayloadCorruptionDetected` | services/bluetoothService.ts:47-52 | changing any one payload byte of a valid frame makes the checksum test fail |
| `BluetoothService.ChecksumCorruptionDetected` | services/bluetoothService.ts:48-52 | changing the checksum byte of a valid frame makes the checksum test fail |
| `BluetoothService.TailCheckedBeforeChecksum` | services/bluetoothService.ts:49-52 | a wrong tail byte is reported as a bad tail whatever the checksum byte holds |
| `PostureConstants.PostureLevels` | constants/posture.ts:4-44 | `none` has level none and `normal` level good; the two side leans are warn; the two crossed legs and the forward lean are bad |
| `PostureConstants.CommandCodes` | constants/posture.ts:56-71 | the nine command codes are distinct and differ from header and tail; uplink codes are 0x01-0x03 and downlink codes 0x10-0x15 |
| `PostureConstants.RatioThresholdsOrdered` | constants/posture.ts:73-79 | lean 0.65 < forward 0.70 < cross-leg 0.75, and the sitting floor is 50 |
| `PostureConstants.DefaultThresholdsOrdered` | constants/posture.ts:46-54 | the default temperature and humidity bounds are ordered; the alert delay is 5 s and the sitting limit 45 min |
| `CushionStore.Share` | store/useCushionStore.ts:147-150 | a channel share of the total lies in [0, 1] and times the total gives the channel sum |
| `CushionStore.SharesComplement` | store/useCushionStore.ts:142-150 | left and right shares add up to one, and so do front and back |
| `CushionStore.Shares` | store/useCushionStore.ts:147-150 | the left, right, front and back ratios are each their two channels' sum divided by the total, lie in [0, 1], and left plus right and front plus back are both one |
| `CushionStore.Rules` | store/useCushionStore.ts:152-175 | the rule chain never yields `none`; its confidence is 0.8 for `normal` and exactly 1 for every other label, since each chosen ratio exceeds the divisor of its `min(ratio / threshold, 1)` |
| `CushionStore.AnalyzePosture` | store/useCushionStore.ts:130-178 | `none` exactly when the total is under 50, with zero ratios and confidence 1; otherwise `leftRatio` times the total is the left-front plus left-back pressure, and likewise right, front and back, the complementary ratios add up to one; every ratio is in [0, 1]; the total is reported; confidence is 0.8 for `normal` and 1 for every other label |
| `CushionStore.PostureMatchesIntegerRules` | store/useCushionStore.ts:152-175 | the label is the first of cross-leg-left, cross-leg-right, lean-forward, lean-left, lean-right whose strict threshold the integer shares exceed, else normal |
| `CushionStore.CrossLegBoundary` | store/useCushionStore.ts:156-171 | a left share of exactly 0.75 is a left lean, not a crossed leg; one more unit on the left front is a crossed left leg |
| `CushionStore.ForwardBeforeSideLean` | store/useCushionStore.ts:163-171 | a reading that leans both forward and left is labelled a forward lean |
| `CushionStore.SidesExclusive` | store/useCushionStore.ts:155-175 | the left and right variants of cross-leg and of lean never qualify together |
| `CushionStore.ConfidenceByLevel` | store/useCushionStore.ts:152-175 | confidence is under 1 exactly for the posture whose level is good |
| `CushionStore.IsSeated` | store/useCushionStore.ts:96-101 | a reading counts as seated only when its total is also at or above the classifier's empty-seat floor |
| `CushionStore.SittingStart` | store/useCushionStore.ts:103-109 | the new start time is `now` on an unseated-to-seated change, kept while seated, and null whenever the new reading is not seated; from a consistent state (start time present exactly when seated) it is present exactly when the new reading is seated |
| `CushionStore.OccupancyVersusPosture` | store/useCushionStore.ts:96-101 | a seated reading always has a posture other than `none`; the two disagree exactly at a total of 50 |
| `CushionStore.StreakStart` | store/useCushionStore.ts:103-109 | the index where the trailing run of seated readings begins: all later readings are seated and the one before is not |
| `CushionStore.SittingStartIsStreakStart` | store/useCushionStore.ts:103-109 | after any sequence of readings the store is seated exactly when the last reading is, and the sitting start time is the clock at the first reading of the current seated run, null otherwise |
| `CushionStore.TakeLast` | store/useCushionStore.ts:202 | `slice(-n)` is the longest suffix with at most `n` elements |
| `CushionStore.TakeFirst` | store/useCushionStore.ts:209 | `slice(0, n)` is the longest prefix with at most `n` elements |
| `CushionStore.AppendEvict` | store/useCushionStore.ts:200-203 | adding a point keeps at most 30, puts the new point last, and drops the oldest only when the list was full |
| `CushionStore.PrependEvict` | store/useCushionStore.ts:207-210 | adding a record puts it first and drops the last record only when the list held 100 |
| `CushionStore.AddPointsKeepsNewest` | store/useCushionStore.ts:200-203 | after any number of additions the list holds the most recent 30 points of all, oldest first |
| `CushionStore.AddRecordsKeepsNewest` | store/useCushionStore.ts:207-210 | after any number of additions the history holds the first 100 of the new records newest first followed by the old ones |
| `CushionStore.EvictionExamples` | store/useCushionStore.ts:200-210 | 35 points leave the last 30 in arrival order; 105 records leave the newest 100, newest first |
| `CushionStore.MergeDevice` | store/useCushionStore.ts:72-73 | every field the partial device gives replaces the old one and every other field is kept |
| `CushionStore.MergeThresholds` | store/useCushionStore.ts:195-196 | every threshold the partial settings give replaces the old one and every other is kept |
| `Wrappers.Option.GetOr` | store/useCushionStore.ts:79-80 | `x ?? d` is the value when present and `d` when absent |
| `CushionStore.CushionState.constructor` | store/useCushionStore.ts:63-226 | the initial store: disconnected empty device, zero reading, `none` posture with confidence 0, not seated, no start time, heater and fan off, default thresholds, empty lists, no alerts |
| `CushionStore.CushionState.SetDevice` | store/useCushionStore.ts:72-73 | the device becomes the old device merged with the partial one; nothing else changes |
| `CushionStore.CushionState.SetConnected` | store/useCushionStore.ts:74-82 | sets the connection flag, keeps name and id when they are omitted, and never touches battery or signal |
| `CushionStore.CushionState.UpdateSensorData` | store/useCushionStore.ts:94-118 | stores the reading and its classification, seated is `total > 50`, the start time becomes `now` on an unseated-to-seated change, is kept while seated and becomes null when not seated; the start time is always the arrival time of the first reading of the current seated run |
| `CushionStore.CushionState.SetSittingDuration` | store/useCushionStore.ts:184 | a plain setter of the sitting seconds |
| `CushionStore.CushionState.SetHeating` | store/useCushionStore.ts:188-189 | only the heating flag changes |
| `CushionStore.CushionState.SetFan` | store/useCushionStore.ts:190-191 | only the fan flag changes |
| `CushionStore.CushionState.UpdateThresholds` | store/useCushionStore.ts:195-196 | the thresholds become the old ones merged with the partial settings |
| `CushionStore.CushionState.AddTempHumidityPoint` | store/useCushionStore.ts:200-203 | the list becomes the last 30 of the old list plus the point; the point is last and the capacity invariant is kept |
| `CushionStore.CushionState.AddHistoryRecord` | store/useCushionStore.ts:207-210 | the history becomes the first 100 of the record followed by the old history; the record is first and the capacity invariant is kept |
| `CushionStore.CushionState.IncrementAlertCount` | store/useCushionStore.ts:223-224 | the counter grows by exactly one |
| `CushionStore.CushionState.ResetAlertCount` | store/useCushionStore.ts:225 | the counter becomes zero |

## Left out

- BuildControlFrame: requires a payload of at most 255 bytes. The source does not check this and would put a length above 255 on the wire, which is not a byte.
- BuildThresholdFrame: requires the four environment thresholds to be bytes. The source passes them through unmasked, and a value outside 0..255 (a negative temperature, say) would not be a byte on the wire.
- ParseSensorFrame: frames are sequences of bytes. The source accepts any JavaScript `number[]`; non-integer, negative or over-255 elements are not modelled.
- `generateMockSensorData` and its module-level phase counter are left out. They depend on `Math.random` and exist only as test data.
- Persistence (the `persist` middleware, AsyncStorage and its `partialize` selection) is left out. It is foreign storage I/O.
- `getTodayRecords` and `getWeekRecords` are left out. They depend on the wall clock and on JavaScript `Date` and ISO-string parsing.
- `POSTURE_INFO` labels and descriptions are left out. They are display text; only the severity level is modelled.
- Pressures are natural numbers, while `types/index.ts` declares them `number`. Every source of readings gives non-negative integers: the decoder builds them from bytes, and the mock generator rounds them. The [0, 1] bounds on the ratios of `AnalyzePosture` rest on this.
- Floating point is left out. Ratios are exact reals, so the model's `leftRatio + rightRatio == 1` may be off by one rounding step in the source. The labels themselves agree for pressures up to 65535: distinct ratios then differ by far more than a double's rounding error, and the source's constants sit on the same side of each exact boundary.
- `Partial<...>` arguments are modelled as present or absent keys. A key explicitly set to `undefined` would overwrite the stored value in JavaScript and is not modelled.
- Session duration accounting, posture-alert debounce, heating/fan hysteresis, an encode-time payload error, a status-query builder and frame-boundary scanning of a byte stream are left out. The source contains none of them: `setSittingDuration`, `setHeating` and `setFan` are plain setters, and nothing in the source calls `incrementAlertCount`; deciding when an alert is raised is not part of this code.
- `Date.now()` is the parameter `now` of `UpdateSensorData` and of the decoder.
