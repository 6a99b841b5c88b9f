/** The cushion's serial frame codec (services/bluetoothService.ts).

    A frame is `[0xAA][cmd][len][payload...][checksum][0x55]`, where the
    checksum is the low byte of the sum of `cmd`, `len` and the payload. */
module BluetoothService {
  import opened Wrappers
  import opened CushionTypes
  import opened PostureConstants

  // ---------- checksum ----------

  /** Plain sum of a byte sequence (added from the left, as the source's loop does). */
  function ByteSum(s: seq<Byte>): nat {
    if s == [] then 0 else ByteSum(s[..|s| - 1]) + s[|s| - 1]
  }

  /** The checksum byte of a frame body: its byte sum modulo 256. */
  function Checksum(body: seq<Byte>): Byte {
    ByteSum(body) % 256
  }

  /** `calcChecksum`: the running sum is masked to its low byte after every
      addition (`& 0xFF`, which is `% 256` on non-negative integers). */
  method CalcChecksum(data: seq<Byte>) returns (sum: Byte)
    ensures sum == ByteSum(data) % 256
  {
    sum := 0;
    for i := 0 to |data|
      invariant sum == ByteSum(data[..i]) % 256
    {
      assert data[..i + 1][..i] == data[..i];
      sum := (sum + data[i]) % 256;
    }
    assert data[..|data|] == data;
  }

  lemma {:induction false} ByteSumAppend(a: seq<Byte>, b: seq<Byte>)
    ensures ByteSum(a + b) == ByteSum(a) + ByteSum(b)
    decreases |b|
  {
    if b == [] {
      assert a + b == a;
    } else {
      var b' := b[..|b| - 1];
      assert (a + b)[..|a + b| - 1] == a + b';
      ByteSumAppend(a, b');
    }
  }

  /** Replacing one byte changes the sum by exactly the difference. */
  lemma {:induction false} ByteSumUpdate(s: seq<Byte>, i: nat, v: Byte)
    requires i < |s|
    ensures ByteSum(s[i := v]) == ByteSum(s) - s[i] + v
  {
    assert s == s[..i] + [s[i]] + s[i + 1..];
    assert s[i := v] == s[..i] + [v] + s[i + 1..];
    ByteSumAppend(s[..i] + [s[i]], s[i + 1..]);
    ByteSumAppend(s[..i] + [v], s[i + 1..]);
    ByteSumAppend(s[..i], [s[i]]);
    ByteSumAppend(s[..i], [v]);
    assert ByteSum([s[i]]) == s[i] by { assert [s[i]][..0] == []; }
    assert ByteSum([v]) == v by { assert [v][..0] == []; }
  }

  /** Two integers closer than 256 but different have different low bytes. */
  lemma LowBytesDiffer(a: int, b: int)
    requires a != b && -256 < a - b < 256
    ensures a % 256 != b % 256
  {
    var k := a / 256 - b / 256;
    assert a % 256 - b % 256 == (a - b) - 256 * k;
    if k > 0 {
      assert 256 * k >= 256;
    } else if k < 0 {
      assert 256 * k <= -256;
    }
  }

  lemma ByteSumOne(x: Byte)
    ensures ByteSum([x]) == x
  {
    assert [x][..0] == [];
  }

  lemma ByteSumPair(x: Byte, y: Byte)
    ensures ByteSum([x, y]) == x as int + y
  {
    assert [x, y][..1] == [x];
    ByteSumOne(x);
  }

  // ---------- encoding ----------

  /** `buildControlFrame`. The source does not check its arguments: a payload
      longer than 255 bytes would put a length that is not a byte on the wire,
      so this is the caller's obligation here. */
  function BuildControlFrame(command: Byte, data: seq<Byte>): (frame: seq<Byte>)
    requires |data| <= 255
    ensures |frame| == |data| + 5
    ensures frame[0] == FRAME_HEADER && frame[1] == command && frame[2] == |data|
    ensures frame[3..3 + |data|] == data
    ensures frame[3 + |data|] == Checksum([command, |data|] + data)
    ensures frame[4 + |data|] == FRAME_TAIL
  {
    [FRAME_HEADER, command, |data|] + data + [Checksum([command, |data|] + data), FRAME_TAIL]
  }

  /** `buildHeatingCommand`: an empty frame whose checksum is the command itself. */
  function BuildHeatingCommand(on: bool): (frame: seq<Byte>)
    ensures on ==> frame == [0xAA, 0x10, 0x00, 0x10, 0x55]
    ensures !on ==> frame == [0xAA, 0x11, 0x00, 0x11, 0x55]
  {
    var cmd := if on then CMD_HEATING_ON else CMD_HEATING_OFF;
    ByteSumPair(cmd, 0);
    assert [cmd, 0] + [] == [cmd, 0];
    BuildControlFrame(cmd, [])
  }

  /** `buildFanCommand`. */
  function BuildFanCommand(on: bool): (frame: seq<Byte>)
    ensures on ==> frame == [0xAA, 0x12, 0x00, 0x12, 0x55]
    ensures !on ==> frame == [0xAA, 0x13, 0x00, 0x13, 0x55]
  {
    var cmd := if on then CMD_FAN_ON else CMD_FAN_OFF;
    ByteSumPair(cmd, 0);
    assert [cmd, 0] + [] == [cmd, 0];
    BuildControlFrame(cmd, [])
  }

  /** `sittingMax & 0xFF`: the byte congruent to `x` modulo 256 (JavaScript's
      `&` on a 32-bit two's-complement integer keeps exactly these bits). */
  function LowByte(x: int): (b: Byte)
    ensures (x - b) % 256 == 0
    ensures 0 <= x < 256 ==> b == x
  {
    x % 256
  }

  /** `buildThresholdFrame`: a five-byte payload of the four environment
      thresholds, passed through unchecked, and the low byte of the sitting limit. */
  function BuildThresholdFrame(tempMin: Byte, tempMax: Byte, humidityMax: Byte, humidityMin: Byte,
                               sittingMax: int): (frame: seq<Byte>)
    ensures |frame| == 10
    ensures frame[..3] == [FRAME_HEADER, CMD_SET_THRESHOLDS, 5]
    ensures frame[3..7] == [tempMin, tempMax, humidityMax, humidityMin]
    ensures (frame[7] as int - sittingMax) % 256 == 0
    ensures frame[8] == (CMD_SET_THRESHOLDS as int + 5 + tempMin + tempMax + humidityMax + humidityMin + frame[7]) % 256
    ensures frame[9] == FRAME_TAIL
  {
    var payload := [tempMin, tempMax, humidityMax, humidityMin, LowByte(sittingMax)];
    var frame := BuildControlFrame(CMD_SET_THRESHOLDS, payload);
    assert frame[3..8] == payload;
    calc {
      ByteSum([CMD_SET_THRESHOLDS, 5] + payload);
      { SumOfSeven([CMD_SET_THRESHOLDS, 5] + payload); }
      CMD_SET_THRESHOLDS as int + 5 + tempMin + tempMax + humidityMax + humidityMin + LowByte(sittingMax);
    }
    frame
  }

  lemma SumOfSeven(s: seq<Byte>)
    requires |s| == 7
    ensures ByteSum(s) == s[0] as int + s[1] + s[2] + s[3] + s[4] + s[5] + s[6]
  {
    ByteSumAppend(s[..2], s[2..]);
    ByteSumPair(s[0], s[1]);
    ByteSumAppend(s[2..4], s[4..]);
    ByteSumPair(s[2], s[3]);
    ByteSumAppend(s[4..6], s[6..]);
    ByteSumPair(s[4], s[5]);
    ByteSumOne(s[6]);
    assert s[..2] + s[2..] == s;
    assert s[2..4] + s[4..] == s[2..];
    assert s[4..6] + s[6..] == s[4..];
  }

  // ---------- decoding ----------

  /** `(hi << 8) | lo`: a big-endian 16-bit value. On byte operands the shift
      leaves the low eight bits clear, so the `|` is an addition (see
      ShiftOrIsSum). */
  function BigEndian16(hi: Byte, lo: Byte): (v: nat)
    ensures v <= 0xFFFF
    ensures v / 256 == hi && v % 256 == lo
  {
    hi as int * 256 + lo
  }

  /** On 32-bit words holding bytes, `(hi << 8) | lo` equals `hi * 256 + lo`. */
  lemma ShiftOrIsSum(hi: bv32, lo: bv32)
    requires hi < 256 && lo < 256
    ensures (hi << 8) | lo == hi * 256 + lo
  {
  }

  /** The `return null` points of `parseSensorFrame`, in the order the source
      tests them. */
  datatype Rejection =
    | TooShort           // fewer than 6 bytes
    | BadHeader          // byte 0 is not 0xAA
    | UnexpectedCommand  // byte 1 is not the sensor-data command
    | Truncated          // fewer bytes than the declared length needs
    | BadTail            // the byte after the checksum is not 0x55
    | ChecksumMismatch   // the checksum byte disagrees with the body
    | PayloadTooShort    // a valid frame whose payload is under 10 bytes

  /** The reading carried by a sensor-data payload: four big-endian 16-bit
      pressures, then a temperature byte and a humidity byte. The wire carries
      no time, so the decode-time clock `now` becomes the timestamp. */
  function ReadingOf(data: seq<Byte>, now: int): (r: SensorData)
    requires |data| >= 10
    ensures r.pressureLeftFront / 256 == data[0] && r.pressureLeftFront % 256 == data[1]
    ensures r.pressureRightFront / 256 == data[2] && r.pressureRightFront % 256 == data[3]
    ensures r.pressureLeftBack / 256 == data[4] && r.pressureLeftBack % 256 == data[5]
    ensures r.pressureRightBack / 256 == data[6] && r.pressureRightBack % 256 == data[7]
    ensures r.pressureLeftFront <= 0xFFFF && r.pressureRightFront <= 0xFFFF
    ensures r.pressureLeftBack <= 0xFFFF && r.pressureRightBack <= 0xFFFF
    ensures r.temperature == data[8] as real && r.humidity == data[9] as real
    ensures r.timestamp == now
  {
    SensorData(
      pressureLeftFront := BigEndian16(data[0], data[1]),
      pressureRightFront := BigEndian16(data[2], data[3]),
      pressureLeftBack := BigEndian16(data[4], data[5]),
      pressureRightBack := BigEndian16(data[6], data[7]),
      temperature := data[8] as real,
      humidity := data[9] as real,
      timestamp := now)
  }

  /** `parseSensorFrame` with the reason for each `null` kept. Bytes after the
      tail are ignored, and the tail is tested before the checksum. */
  function Decode(raw: seq<Byte>, now: int): (r: Result<SensorData, Rejection>)
    ensures r == Failure(TooShort) <==> |raw| < 6
    ensures 6 <= |raw| && raw[0] != FRAME_HEADER ==> r == Failure(BadHeader)
    ensures r.Success? ==> 10 <= raw[2] && raw[2] as int + 5 <= |raw|
    ensures r.Success? ==> raw[0] == FRAME_HEADER && raw[1] == CMD_SENSOR_DATA
    ensures r.Success? ==> raw[4 + raw[2] as int] == FRAME_TAIL
    ensures r.Success? ==> raw[3 + raw[2] as int] == Checksum([raw[1], raw[2]] + raw[3..3 + raw[2] as int])
    ensures r.Success? ==> r.value == ReadingOf(raw[3..3 + raw[2] as int], now)
    ensures r == Failure(PayloadTooShort) ==> raw[2] < 10
  {
    if |raw| < 6 then Failure(TooShort)
    else if raw[0] != FRAME_HEADER then Failure(BadHeader)
    else if raw[1] != CMD_SENSOR_DATA then Failure(UnexpectedCommand)
    else
      var dataLen: int := raw[2];
      if |raw| < 3 + dataLen + 2 then Failure(Truncated)
      else
        var data := raw[3..3 + dataLen];
        if raw[4 + dataLen] != FRAME_TAIL then Failure(BadTail)
        else if Checksum([raw[1], raw[2]] + data) != raw[3 + dataLen] then Failure(ChecksumMismatch)
        else if dataLen >= 10 then Success(ReadingOf(data, now))
        else Failure(PayloadTooShort)
  }

  /** `parseSensorFrame`: `None` is the source's `null`. */
  function ParseSensorFrame(raw: seq<Byte>, now: int): (r: Option<SensorData>)
    ensures |raw| < 6 ==> r.None?
    ensures |raw| > 0 && raw[0] != FRAME_HEADER ==> r.None?
    ensures |raw| > 1 && raw[1] != CMD_SENSOR_DATA ==> r.None?
    ensures |raw| > 2 && |raw| < raw[2] as int + 5 ==> r.None?
    ensures r.Some? ==> 10 <= raw[2] && raw[2] as int + 5 <= |raw|
    ensures r.Some? ==> r.value.timestamp == now
    ensures r.Some? ==> r.value.pressureLeftFront <= 0xFFFF && r.value.pressureRightFront <= 0xFFFF
    ensures r.Some? ==> r.value.pressureLeftBack <= 0xFFFF && r.value.pressureRightBack <= 0xFFFF
    ensures r.Some? ==> 0.0 <= r.value.temperature < 256.0 && 0.0 <= r.value.humidity < 256.0
  {
    Decode(raw, now).ToOption()
  }

  // ---------- properties of the pair ----------

  /** Round trip: a sensor-data frame built by the encoder, followed by any
      bytes at all, decodes to exactly the channel values of its payload. */
  lemma {:induction false} RoundTrip(d: seq<Byte>, rest: seq<Byte>, now: int)
    requires 10 <= |d| <= 255
    ensures ParseSensorFrame(BuildControlFrame(CMD_SENSOR_DATA, d) + rest, now)
         == Some(SensorData(d[0] as int * 256 + d[1], d[2] as int * 256 + d[3],
                            d[4] as int * 256 + d[5], d[6] as int * 256 + d[7],
                            d[8] as real, d[9] as real, now))
  {
    var raw := BuildControlFrame(CMD_SENSOR_DATA, d) + rest;
    assert raw[3..3 + |d|] == d;
    assert [raw[1], raw[2]] == [CMD_SENSOR_DATA, |d|];
    assert Decode(raw, now) == Success(ReadingOf(d, now));
  }

  /** Every accepted input starts with a frame the encoder would build for its
      own payload, and the reading is that payload's: nothing else is accepted. */
  lemma {:induction false} AcceptedIsEncoded(raw: seq<Byte>, now: int)
    requires ParseSensorFrame(raw, now).Some?
    ensures 10 <= raw[2] && raw[2] as int + 5 <= |raw|
    ensures raw[..raw[2] as int + 5] == BuildControlFrame(CMD_SENSOR_DATA, raw[3..3 + raw[2] as int])
    ensures ParseSensorFrame(raw, now).value == ReadingOf(raw[3..3 + raw[2] as int], now)
  {
    var n: int := raw[2];
    var frame := BuildControlFrame(CMD_SENSOR_DATA, raw[3..3 + n]);
    assert |frame| == n + 5;
    forall k | 0 <= k < n + 5
      ensures raw[..n + 5][k] == frame[k]
    {
      if 3 <= k < 3 + n {
        assert frame[3..3 + n][k - 3] == frame[k];
      }
    }
  }

  /** A frame built for a payload under 10 bytes is a valid frame but not a
      reading; with nothing after it, an empty payload is too short to parse. */
  lemma {:induction false} ShortPayloadRejected(d: seq<Byte>, rest: seq<Byte>, now: int)
    requires |d| < 10
    ensures Decode(BuildControlFrame(CMD_SENSOR_DATA, d) + rest, now)
         == if |d| + |rest| == 0 then Failure(TooShort) else Failure(PayloadTooShort)
  {
    var raw := BuildControlFrame(CMD_SENSOR_DATA, d) + rest;
    assert raw[3..3 + |d|] == d;
    assert [raw[1], raw[2]] == [CMD_SENSOR_DATA, |d|];
  }

  /** Frames carrying any other command are refused by this decoder. */
  lemma {:induction false} OtherCommandRejected(cmd: Byte, d: seq<Byte>, rest: seq<Byte>, now: int)
    requires cmd != CMD_SENSOR_DATA && |d| <= 255
    ensures ParseSensorFrame(BuildControlFrame(cmd, d) + rest, now) == None
    ensures |d| + |rest| > 0 ==> Decode(BuildControlFrame(cmd, d) + rest, now) == Failure(UnexpectedCommand)
  {
    var raw := BuildControlFrame(cmd, d) + rest;
    assert raw[1] == cmd;
  }

  /** A partial read (a proper prefix of a frame, at least 6 bytes long) is
      refused as truncated. */
  lemma {:induction false} PrefixRejected(d: seq<Byte>, k: nat, now: int)
    requires |d| <= 255 && 6 <= k < |d| + 5
    ensures Decode(BuildControlFrame(CMD_SENSOR_DATA, d)[..k], now) == Failure(Truncated)
  {
    var raw := BuildControlFrame(CMD_SENSOR_DATA, d)[..k];
    assert raw[0] == FRAME_HEADER && raw[1] == CMD_SENSOR_DATA && raw[2] == |d|;
  }

  /** Changing any one payload byte of a valid frame is caught by the checksum. */
  lemma {:induction false} PayloadCorruptionDetected(d: seq<Byte>, i: nat, v: Byte, rest: seq<Byte>, now: int)
    requires |d| <= 255 && i < |d| && v != d[i]
    ensures Decode(BuildControlFrame(CMD_SENSOR_DATA, d)[3 + i := v] + rest, now) == Failure(ChecksumMismatch)
  {
    var frame := BuildControlFrame(CMD_SENSOR_DATA, d);
    var raw := frame[3 + i := v] + rest;
    var body := [CMD_SENSOR_DATA, |d|] + d;
    assert raw[3..3 + |d|] == d[i := v];
    assert [raw[1], raw[2]] + d[i := v] == body[i + 2 := v];
    ByteSumUpdate(body, i + 2, v);
    LowBytesDiffer(ByteSum(body[i + 2 := v]), ByteSum(body));
  }

  /** Changing the checksum byte of a valid frame is caught. */
  lemma {:induction false} ChecksumCorruptionDetected(d: seq<Byte>, c: Byte, rest: seq<Byte>, now: int)
    requires |d| <= 255 && 1 <= |d| + |rest| && c != Checksum([CMD_SENSOR_DATA, |d|] + d)
    ensures Decode(BuildControlFrame(CMD_SENSOR_DATA, d)[3 + |d| := c] + rest, now) == Failure(ChecksumMismatch)
  {
    var raw := BuildControlFrame(CMD_SENSOR_DATA, d)[3 + |d| := c] + rest;
    assert raw[3..3 + |d|] == d;
    assert [raw[1], raw[2]] == [CMD_SENSOR_DATA, |d|];
  }

  /** The tail is tested first: a wrong tail byte is reported as such whatever
      the checksum byte holds. */
  lemma {:induction false} TailCheckedBeforeChecksum(d: seq<Byte>, c: Byte, t: Byte, rest: seq<Byte>, now: int)
    requires |d| <= 255 && 1 <= |d| + |rest| && t != FRAME_TAIL
    ensures Decode(BuildControlFrame(CMD_SENSOR_DATA, d)[3 + |d| := c][4 + |d| := t] + rest, now) == Failure(BadTail)
  {
    var raw := BuildControlFrame(CMD_SENSOR_DATA, d)[3 + |d| := c][4 + |d| := t] + rest;
    assert raw[4 + |d|] == t;
  }
}
