/** The cushion state store (store/useCushionStore.ts): the posture
    classifier `analyzePosture` and the record of fields its actions update. */
module CushionStore {
  import opened Wrappers
  import opened CushionTypes
  import opened PostureConstants

  // ---------- posture classifier ----------

  /** Sum of the four pressure channels. */
  function Total(d: SensorData): nat {
    d.pressureLeftFront + d.pressureRightFront + d.pressureLeftBack + d.pressureRightBack
  }

  /** `Math.min`. */
  function Min(x: real, y: real): (m: real)
    ensures m <= x && m <= y && (m == x || m == y)
  {
    if x <= y then x else y
  }

  /** `r` is the share `part` makes of `total`. */
  predicate IsShareOf(r: real, part: nat, total: nat) {
    r * total as real == part as real
  }

  /** `part / total` as a share of the total. */
  function Share(part: nat, total: nat): (r: real)
    requires part <= total && total > 0
    ensures 0.0 <= r <= 1.0
    ensures IsShareOf(r, part, total)
  {
    part as real / total as real
  }

  /** Shares of two parts making up the whole add up to one. */
  lemma SharesComplement(a: nat, b: nat)
    requires a + b > 0
    ensures Share(a, a + b) + Share(b, a + b) == 1.0
  {
    var t := (a + b) as real;
    var x, y := Share(a, a + b), Share(b, a + b);
    var z := x + y;
    assert x * t == a as real && y * t == b as real;
    assert z * t == x * t + y * t;
    assert t == a as real + b as real;
    assert z * t == a as real + b as real;
    assert z * t == t;
    UnitFactor(z, t);
    assert z == 1.0;
  }

  lemma UnitFactor(z: real, t: real)
    requires t > 0.0
    ensures z * t == t ==> z == 1.0
  {
    if z > 1.0 {
      assert (z - 1.0) * t > 0.0;
    } else if z < 1.0 {
      assert (1.0 - z) * t > 0.0;
    }
  }

  /** A share exceeds the threshold `c = p/q` exactly when `q * part > p * total`. */
  lemma ShareAbove(part: nat, total: nat, c: real, p: nat, q: nat)
    requires part <= total && total > 0 && q > 0 && c * q as real == p as real
    ensures Share(part, total) > c <==> q * part > p * total
  {
    var x := Share(part, total);
    var t := total as real;
    var qr := q as real;
    assert (q * part) as real == qr * part as real;
    assert (p * total) as real == p as real * t;
    assert qr * part as real == qr * (x * t);
    assert p as real * t == (c * qr) * t;
    ProductSign(qr * t, x - c);
    assert (q * part) as real - (p * total) as real == (qr * t) * (x - c);
  }

  /** Multiplying by a positive number keeps the sign. */
  lemma ProductSign(k: real, d: real)
    requires k > 0.0
    ensures d > 0.0 <==> k * d > 0.0
  {
  }

  /** The rule chain of `analyzePosture` (strict `>`, first match wins) with
      its confidence `min(ratio / threshold, 1)`; `normal` is the fallback. */
  function Rules(leftRatio: real, rightRatio: real, frontRatio: real): (r: (PostureType, real))
    ensures r.0 != Unseated
    ensures r.1 == if r.0 == Normal then 0.8 else 1.0
  {
    if leftRatio > CROSS_LEG_RATIO then (CrossLegLeft, Min(leftRatio / 0.75, 1.0))
    else if rightRatio > CROSS_LEG_RATIO then (CrossLegRight, Min(rightRatio / 0.75, 1.0))
    else if frontRatio > FORWARD_RATIO then (LeanForward, Min(frontRatio / 0.70, 1.0))
    else if leftRatio > LEAN_RATIO then (LeanLeft, Min(leftRatio / 0.65, 1.0))
    else if rightRatio > LEAN_RATIO then (LeanRight, Min(rightRatio / 0.65, 1.0))
    else (Normal, 0.8)
  }

  /** The left, right, front and back shares of a non-empty reading, in that
      order: each is its two channels' part of the total. */
  function Shares(data: SensorData): (s: (real, real, real, real))
    requires Total(data) > 0
    ensures IsShareOf(s.0, data.pressureLeftFront + data.pressureLeftBack, Total(data))
    ensures IsShareOf(s.1, data.pressureRightFront + data.pressureRightBack, Total(data))
    ensures IsShareOf(s.2, data.pressureLeftFront + data.pressureRightFront, Total(data))
    ensures IsShareOf(s.3, data.pressureLeftBack + data.pressureRightBack, Total(data))
    ensures s.0 + s.1 == 1.0 && s.2 + s.3 == 1.0
    ensures 0.0 <= s.0 <= 1.0 && 0.0 <= s.1 <= 1.0 && 0.0 <= s.2 <= 1.0 && 0.0 <= s.3 <= 1.0
  {
    var lf, rf, lb, rb := data.pressureLeftFront, data.pressureRightFront,
                          data.pressureLeftBack, data.pressureRightBack;
    var total := Total(data);
    SharesComplement(lf + lb, rf + rb);
    SharesComplement(lf + rf, lb + rb);
    (Share(lf + lb, total), Share(rf + rb, total), Share(lf + rf, total), Share(lb + rb, total))
  }

  /** `analyzePosture`: below the sitting floor the seat is empty; otherwise
      the four shares of the total decide the posture through `Rules`. */
  function AnalyzePosture(data: SensorData): (a: PostureAnalysis)
    ensures a.totalPressure == Total(data)
    ensures a.posture == Unseated <==> Total(data) < MIN_SIT_PRESSURE
    ensures a.posture == Unseated ==> a == PostureAnalysis(Unseated, 0.0, 0.0, 0.0, 0.0, Total(data), 1.0)
    ensures a.posture != Unseated ==> IsShareOf(a.leftRatio, data.pressureLeftFront + data.pressureLeftBack, Total(data))
    ensures a.posture != Unseated ==> IsShareOf(a.rightRatio, data.pressureRightFront + data.pressureRightBack, Total(data))
    ensures a.posture != Unseated ==> IsShareOf(a.frontRatio, data.pressureLeftFront + data.pressureRightFront, Total(data))
    ensures a.posture != Unseated ==> IsShareOf(a.backRatio, data.pressureLeftBack + data.pressureRightBack, Total(data))
    ensures a.posture != Unseated ==> a.leftRatio + a.rightRatio == 1.0 && a.frontRatio + a.backRatio == 1.0
    ensures 0.0 <= a.leftRatio <= 1.0 && 0.0 <= a.rightRatio <= 1.0
    ensures 0.0 <= a.frontRatio <= 1.0 && 0.0 <= a.backRatio <= 1.0
    ensures a.confidence == if a.posture == Normal then 0.8 else 1.0
  {
    var total := Total(data);
    if total < MIN_SIT_PRESSURE then
      PostureAnalysis(Unseated, 0.0, 0.0, 0.0, 0.0, total, 1.0)
    else
      var s := Shares(data);
      var r := Rules(s.0, s.1, s.2);
      PostureAnalysis(r.0, s.0, s.1, s.2, s.3, total, r.1)
  }

  /** The same rules over integers: `part / total > p / q` is `q * part > p * total`. */
  function IntegerPosture(data: SensorData): PostureType {
    var lf, rf, lb, rb := data.pressureLeftFront, data.pressureRightFront,
                          data.pressureLeftBack, data.pressureRightBack;
    var total := Total(data);
    if total < 50 then Unseated
    else if 4 * (lf + lb) > 3 * total then CrossLegLeft
    else if 4 * (rf + rb) > 3 * total then CrossLegRight
    else if 10 * (lf + rf) > 7 * total then LeanForward
    else if 20 * (lf + lb) > 13 * total then LeanLeft
    else if 20 * (rf + rb) > 13 * total then LeanRight
    else Normal
  }

  /** The classifier's label is exactly the one the integer rules give, so no
      boundary case is lost to rounding in the model. */
  lemma {:induction false} PostureMatchesIntegerRules(data: SensorData)
    ensures AnalyzePosture(data).posture == IntegerPosture(data)
  {
    var total := Total(data);
    if total >= 50 {
      var l := data.pressureLeftFront + data.pressureLeftBack;
      var r := data.pressureRightFront + data.pressureRightBack;
      var f := data.pressureLeftFront + data.pressureRightFront;
      assert AnalyzePosture(data).posture == Rules(Share(l, total), Share(r, total), Share(f, total)).0;
      ShareAbove(l, total, CROSS_LEG_RATIO, 3, 4);
      ShareAbove(r, total, CROSS_LEG_RATIO, 3, 4);
      ShareAbove(f, total, FORWARD_RATIO, 7, 10);
      ShareAbove(l, total, LEAN_RATIO, 13, 20);
      ShareAbove(r, total, LEAN_RATIO, 13, 20);
    }
  }

  /** A left share of exactly 0.75 is not a crossed left leg (it is a left
      lean); one unit more on the left front is. */
  lemma CrossLegBoundary()
    ensures AnalyzePosture(SensorData(375, 125, 375, 125, 0.0, 0.0, 0)).leftRatio == 0.75
    ensures AnalyzePosture(SensorData(375, 125, 375, 125, 0.0, 0.0, 0)).posture == LeanLeft
    ensures AnalyzePosture(SensorData(376, 125, 375, 125, 0.0, 0.0, 0)).posture == CrossLegLeft
  {
    PostureMatchesIntegerRules(SensorData(375, 125, 375, 125, 0.0, 0.0, 0));
    PostureMatchesIntegerRules(SensorData(376, 125, 375, 125, 0.0, 0.0, 0));
  }

  /** Forward lean is tested before side lean: a reading that is both is
      labelled a forward lean. */
  lemma ForwardBeforeSideLean()
    ensures AnalyzePosture(SensorData(600, 150, 100, 150, 0.0, 0.0, 0)).posture == LeanForward
  {
    PostureMatchesIntegerRules(SensorData(600, 150, 100, 150, 0.0, 0.0, 0));
  }

  /** Crossing one leg and leaning to one side are each one-sided: the left and
      right variants never both qualify, so their order in the rule chain does
      not matter. */
  lemma SidesExclusive(data: SensorData)
    requires Total(data) >= MIN_SIT_PRESSURE
    ensures !(AnalyzePosture(data).leftRatio > CROSS_LEG_RATIO && AnalyzePosture(data).rightRatio > CROSS_LEG_RATIO)
    ensures !(AnalyzePosture(data).leftRatio > LEAN_RATIO && AnalyzePosture(data).rightRatio > LEAN_RATIO)
  {
  }

  /** Confidence is below one exactly for the one posture graded good. */
  lemma ConfidenceByLevel(data: SensorData)
    ensures AnalyzePosture(data).confidence < 1.0 <==> PostureLevel(AnalyzePosture(data).posture) == Good
  {
  }

  // ---------- occupancy ----------

  /** The store's occupancy test: strictly above the sitting floor. A seated
      reading always passes the classifier's empty-seat test. */
  predicate IsSeated(data: SensorData): (r: bool)
    ensures r ==> !(Total(data) < MIN_SIT_PRESSURE)
  {
    Total(data) > MIN_SIT_PRESSURE
  }

  /** Occupancy and the classifier disagree only at a total of exactly the
      floor: such a reading is classified as sitting but does not count as seated. */
  lemma OccupancyVersusPosture(data: SensorData)
    ensures IsSeated(data) ==> AnalyzePosture(data).posture != Unseated
    ensures (AnalyzePosture(data).posture != Unseated && !IsSeated(data)) <==> Total(data) == MIN_SIT_PRESSURE
  {
  }

  /** The new `sittingStartTime` after a reading: set to `now` on an
      unseated-to-seated change, cleared when not seated, kept otherwise. */
  function SittingStart(wasSeated: bool, start: Option<int>, seated: bool, now: int): (r: Option<int>)
    ensures (wasSeated <==> start.Some?) ==> (r.Some? <==> seated)
    ensures seated && !wasSeated ==> r == Some(now)
    ensures seated && wasSeated ==> r == start
    ensures !seated ==> r == None
  {
    if seated && !wasSeated then Some(now)
    else if !seated then None
    else start
  }

  /** A reading applied to the store together with the clock at that moment. */
  datatype Arrival = Arrival(reading: SensorData, now: int)

  /** `isSeated` and `sittingStartTime` of a fresh store after `trace`. */
  function SeatState(trace: seq<Arrival>): (bool, Option<int>) {
    if trace == [] then (false, None)
    else
      var prev := SeatState(trace[..|trace| - 1]);
      var last := trace[|trace| - 1];
      var seated := IsSeated(last.reading);
      (seated, SittingStart(prev.0, prev.1, seated, last.now))
  }

  /** Where the trailing run of seated readings of `trace` begins. */
  function StreakStart(trace: seq<Arrival>): (k: nat)
    ensures k <= |trace|
    ensures forall i :: k <= i < |trace| ==> IsSeated(trace[i].reading)
    ensures 0 < k ==> !IsSeated(trace[k - 1].reading)
  {
    if trace == [] then 0
    else if IsSeated(trace[|trace| - 1].reading) then StreakStart(trace[..|trace| - 1])
    else |trace|
  }

  /** After any sequence of readings the store is seated exactly when the last
      reading is, and `sittingStartTime` is the arrival time of the first
      reading of the current seated run (and null when not seated). */
  lemma {:induction false} SittingStartIsStreakStart(trace: seq<Arrival>)
    ensures SeatState(trace).0 <==> StreakStart(trace) < |trace|
    ensures SeatState(trace).1 == if StreakStart(trace) < |trace| then Some(trace[StreakStart(trace)].now) else None
  {
    if trace != [] {
      var prefix := trace[..|trace| - 1];
      SittingStartIsStreakStart(prefix);
      if IsSeated(trace[|trace| - 1].reading) && StreakStart(prefix) < |prefix| {
        assert trace[StreakStart(trace)] == prefix[StreakStart(prefix)];
      }
    }
  }

  // ---------- bounded lists ----------

  const TEMP_HUMIDITY_CAPACITY: nat := 30
  const HISTORY_CAPACITY: nat := 100

  /** `s.slice(-n)` for a positive `n`: the longest suffix of `s` with at most `n` elements. */
  function TakeLast<T>(s: seq<T>, n: nat): (r: seq<T>)
    requires n > 0
    ensures |r| == if |s| < n then |s| else n
    ensures s == s[..|s| - |r|] + r
  {
    if |s| <= n then s else s[|s| - n..]
  }

  /** `s.slice(0, n)`: the longest prefix of `s` with at most `n` elements. */
  function TakeFirst<T>(s: seq<T>, n: nat): (r: seq<T>)
    ensures |r| == if |s| < n then |s| else n
    ensures s == r + s[|r|..]
  {
    if |s| <= n then s else s[..n]
  }

  /** One `addTempHumidityPoint` on a buffer within capacity: the point goes
      last, and the oldest point is evicted only when the buffer was full. */
  lemma AppendEvict<T>(s: seq<T>, p: T, n: nat)
    requires 0 < n && |s| <= n
    ensures |TakeLast(s + [p], n)| <= n
    ensures TakeLast(s + [p], n)[|TakeLast(s + [p], n)| - 1] == p
    ensures TakeLast(s + [p], n) == if |s| < n then s + [p] else s[1..] + [p]
  {
  }

  /** One `addHistoryRecord`: the record goes first, and the last record is
      dropped only when the list was full. */
  lemma PrependEvict<T>(s: seq<T>, r: T, n: nat)
    requires 0 < n && |s| <= n
    ensures TakeFirst([r] + s, n)[0] == r
    ensures TakeFirst([r] + s, n) == if |s| < n then [r] + s else [r] + s[..n - 1]
  {
    if |s| == n {
      assert ([r] + s)[..n] == [r] + s[..n - 1];
    }
  }

  /** The temperature/humidity list after adding `points` one by one. */
  function AddPoints<T>(s: seq<T>, points: seq<T>, n: nat): seq<T>
    requires n > 0
  {
    if points == [] then s
    else TakeLast(AddPoints(s, points[..|points| - 1], n) + [points[|points| - 1]], n)
  }

  /** The history list after adding `records` one by one. */
  function AddRecords<T>(s: seq<T>, records: seq<T>, n: nat): seq<T> {
    if records == [] then s
    else TakeFirst([records[|records| - 1]] + AddRecords(s, records[..|records| - 1], n), n)
  }

  function Reverse<T>(s: seq<T>): (r: seq<T>)
    ensures |r| == |s|
    ensures forall i :: 0 <= i < |s| ==> r[i] == s[|s| - 1 - i]
  {
    if s == [] then [] else [s[|s| - 1]] + Reverse(s[..|s| - 1])
  }

  lemma TakeLastTwice<T>(a: seq<T>, x: T, n: nat)
    requires n > 0
    ensures TakeLast(TakeLast(a, n) + [x], n) == TakeLast(a + [x], n)
  {
    if |a| > n {
      assert TakeLast(a, n) + [x] == (a + [x])[|a| - n..];
      assert (a + [x])[|a| - n..][1..] == (a + [x])[|a| + 1 - n..];
    }
  }

  lemma TakeFirstTwice<T>(a: seq<T>, x: T, n: nat)
    requires n > 0
    ensures TakeFirst([x] + TakeFirst(a, n), n) == TakeFirst([x] + a, n)
  {
    if |a| > n {
      assert ([x] + a[..n])[..n] == ([x] + a)[..n];
    }
  }

  /** However many points arrive, the buffer holds exactly the most recent
      `n` of all points (old and new), oldest first. */
  lemma {:induction false} AddPointsKeepsNewest<T>(s: seq<T>, points: seq<T>, n: nat)
    requires 0 < n && |s| <= n
    ensures AddPoints(s, points, n) == TakeLast(s + points, n)
  {
    if points == [] {
      assert s + points == s;
    } else {
      var init := points[..|points| - 1];
      var x := points[|points| - 1];
      calc {
        AddPoints(s, points, n);
        TakeLast(AddPoints(s, init, n) + [x], n);
        { AddPointsKeepsNewest(s, init, n); }
        TakeLast(TakeLast(s + init, n) + [x], n);
        { TakeLastTwice(s + init, x, n); }
        TakeLast(s + init + [x], n);
        { assert points == init + [x]; assert s + init + [x] == s + points; }
        TakeLast(s + points, n);
      }
    }
  }

  /** However many records arrive, the history holds the first `n` of the new
      records newest first followed by the old ones. */
  lemma {:induction false} AddRecordsKeepsNewest<T>(s: seq<T>, records: seq<T>, n: nat)
    requires n > 0 && |s| <= n
    ensures AddRecords(s, records, n) == TakeFirst(Reverse(records) + s, n)
  {
    if records == [] {
      assert Reverse(records) + s == s;
    } else {
      var init := records[..|records| - 1];
      var x := records[|records| - 1];
      calc {
        AddRecords(s, records, n);
        TakeFirst([x] + AddRecords(s, init, n), n);
        { AddRecordsKeepsNewest(s, init, n); }
        TakeFirst([x] + TakeFirst(Reverse(init) + s, n), n);
        { TakeFirstTwice(Reverse(init) + s, x, n); }
        TakeFirst([x] + (Reverse(init) + s), n);
        { assert Reverse(records) == [x] + Reverse(init); assert [x] + (Reverse(init) + s) == Reverse(records) + s; }
        TakeFirst(Reverse(records) + s, n);
      }
    }
  }

  /** Thirty-five points leave the last thirty; a hundred and five records leave
      the newest hundred. */
  lemma EvictionExamples<T>(points: seq<T>, records: seq<T>)
    requires |points| == 35 && |records| == 105
    ensures AddPoints([], points, TEMP_HUMIDITY_CAPACITY) == points[5..]
    ensures AddRecords([], records, HISTORY_CAPACITY) == Reverse(records)[..100]
  {
    AddPointsKeepsNewest([], points, TEMP_HUMIDITY_CAPACITY);
    AddRecordsKeepsNewest([], records, HISTORY_CAPACITY);
    assert [] + points == points;
    assert Reverse(records) + [] == Reverse(records);
  }

  // ---------- partial updates ----------

  /** `{ ...device, ...patch }`: every field the patch gives replaces the old one. */
  function MergeDevice(d: DeviceStatus, p: DevicePatch): (r: DeviceStatus)
    ensures r.isConnected == p.isConnected.GetOr(d.isConnected)
    ensures r.deviceName == p.deviceName.GetOr(d.deviceName)
    ensures r.deviceId == p.deviceId.GetOr(d.deviceId)
    ensures r.batteryLevel == p.batteryLevel.GetOr(d.batteryLevel)
    ensures r.signalStrength == p.signalStrength.GetOr(d.signalStrength)
  {
    DeviceStatus(
      p.isConnected.GetOr(d.isConnected),
      p.deviceName.GetOr(d.deviceName),
      p.deviceId.GetOr(d.deviceId),
      p.batteryLevel.GetOr(d.batteryLevel),
      p.signalStrength.GetOr(d.signalStrength))
  }

  /** `{ ...thresholds, ...patch }`. */
  function MergeThresholds(t: ThresholdSettings, p: ThresholdPatch): (r: ThresholdSettings)
    ensures r.tempMin == p.tempMin.GetOr(t.tempMin)
    ensures r.tempMax == p.tempMax.GetOr(t.tempMax)
    ensures r.humidityMax == p.humidityMax.GetOr(t.humidityMax)
    ensures r.humidityMin == p.humidityMin.GetOr(t.humidityMin)
    ensures r.sittingDurationMax == p.sittingDurationMax.GetOr(t.sittingDurationMax)
    ensures r.postureAlertDelay == p.postureAlertDelay.GetOr(t.postureAlertDelay)
  {
    ThresholdSettings(
      p.tempMin.GetOr(t.tempMin),
      p.tempMax.GetOr(t.tempMax),
      p.humidityMax.GetOr(t.humidityMax),
      p.humidityMin.GetOr(t.humidityMin),
      p.sittingDurationMax.GetOr(t.sittingDurationMax),
      p.postureAlertDelay.GetOr(t.postureAlertDelay))
  }

  // ---------- the store ----------

  const ZERO_READING: SensorData := SensorData(0, 0, 0, 0, 0.0, 0.0, 0)

  class CushionState {
    var device: DeviceStatus
    var sensorData: SensorData
    var currentPosture: PostureAnalysis
    var isSeated: bool
    var sittingStartTime: Option<int>
    var sittingDuration: int
    var control: DeviceControl
    var thresholds: ThresholdSettings
    var tempHumidityHistory: seq<TempHumidityPoint>
    var history: seq<HistoryRecord>
    var todayAlertCount: nat

    /** Every reading applied so far, with the clock at that moment. */
    ghost var arrivals: seq<Arrival>

    ghost predicate Valid()
      reads this
    {
      && isSeated == IsSeated(sensorData)
      && (isSeated, sittingStartTime) == SeatState(arrivals)
      && (sittingStartTime.Some? <==> isSeated)
      && |tempHumidityHistory| <= TEMP_HUMIDITY_CAPACITY
      && |history| <= HISTORY_CAPACITY
    }

    /** The store's initial state. */
    constructor ()
      ensures Valid()
      ensures device == DeviceStatus(false, "", "", 0, 0)
      ensures sensorData == ZERO_READING
      ensures currentPosture == PostureAnalysis(Unseated, 0.0, 0.0, 0.0, 0.0, 0, 0.0)
      ensures !isSeated && sittingStartTime == None && sittingDuration == 0
      ensures control == DeviceControl(false, false)
      ensures thresholds == DEFAULT_THRESHOLDS
      ensures tempHumidityHistory == [] && history == [] && todayAlertCount == 0
      ensures arrivals == []
    {
      device := DeviceStatus(false, "", "", 0, 0);
      sensorData := ZERO_READING;
      currentPosture := PostureAnalysis(Unseated, 0.0, 0.0, 0.0, 0.0, 0, 0.0);
      isSeated := false;
      sittingStartTime := None;
      sittingDuration := 0;
      control := DeviceControl(false, false);
      thresholds := DEFAULT_THRESHOLDS;
      tempHumidityHistory := [];
      history := [];
      todayAlertCount := 0;
      arrivals := [];
      assert SeatState([]) == (false, None);
      assert !IsSeated(ZERO_READING);
    }

    /** `setDevice`. */
    method SetDevice(patch: DevicePatch)
      requires Valid()
      modifies this`device
      ensures Valid()
      ensures device == MergeDevice(old(device), patch)
    {
      device := MergeDevice(device, patch);
    }

    /** `setConnected`: a `setDevice` that always sets the connection flag and
        keeps the name and id the caller leaves out. */
    method SetConnected(connected: bool, name: Option<string>, id: Option<string>)
      requires Valid()
      modifies this`device
      ensures Valid()
      ensures device == MergeDevice(old(device), DevicePatch(Some(connected), name, id, None, None))
      ensures device.isConnected == connected
      ensures name == None ==> device.deviceName == old(device.deviceName)
      ensures id == None ==> device.deviceId == old(device.deviceId)
      ensures device.batteryLevel == old(device.batteryLevel) && device.signalStrength == old(device.signalStrength)
    {
      device := device.(
        isConnected := connected,
        deviceName := name.GetOr(device.deviceName),
        deviceId := id.GetOr(device.deviceId));
    }

    /** `updateSensorData`: store the reading and its classification, recompute
        occupancy, and move the sitting start time on an occupancy change. */
    method UpdateSensorData(data: SensorData, now: int)
      requires Valid()
      modifies this`sensorData, this`currentPosture, this`isSeated, this`sittingStartTime, this`arrivals
      ensures Valid()
      ensures sensorData == data && currentPosture == AnalyzePosture(data)
      ensures isSeated == IsSeated(data)
      ensures isSeated && !old(isSeated) ==> sittingStartTime == Some(now)
      ensures isSeated && old(isSeated) ==> sittingStartTime == old(sittingStartTime)
      ensures !isSeated ==> sittingStartTime == None
      ensures arrivals == old(arrivals) + [Arrival(data, now)]
      ensures isSeated ==> sittingStartTime == Some(arrivals[StreakStart(arrivals)].now)
    {
      var posture := AnalyzePosture(data);
      var seated := IsSeated(data);
      sittingStartTime := SittingStart(isSeated, sittingStartTime, seated, now);
      sensorData := data;
      currentPosture := posture;
      isSeated := seated;
      arrivals := arrivals + [Arrival(data, now)];
      assert arrivals[..|arrivals| - 1] == old(arrivals);
      SittingStartIsStreakStart(arrivals);
    }

    /** `setSittingDuration`: a plain setter; nothing accumulates here. */
    method SetSittingDuration(seconds: int)
      requires Valid()
      modifies this`sittingDuration
      ensures Valid() && sittingDuration == seconds
    {
      sittingDuration := seconds;
    }

    /** `setHeating`: only the heating flag changes. */
    method SetHeating(on: bool)
      requires Valid()
      modifies this`control
      ensures Valid()
      ensures control.heatingOn == on && control.fanOn == old(control.fanOn)
    {
      control := control.(heatingOn := on);
    }

    /** `setFan`: only the fan flag changes. */
    method SetFan(on: bool)
      requires Valid()
      modifies this`control
      ensures Valid()
      ensures control.fanOn == on && control.heatingOn == old(control.heatingOn)
    {
      control := control.(fanOn := on);
    }

    /** `updateThresholds`. */
    method UpdateThresholds(patch: ThresholdPatch)
      requires Valid()
      modifies this`thresholds
      ensures Valid()
      ensures thresholds == MergeThresholds(old(thresholds), patch)
    {
      thresholds := MergeThresholds(thresholds, patch);
    }

    /** `addTempHumidityPoint`: append, keeping the last thirty. */
    method AddTempHumidityPoint(point: TempHumidityPoint)
      requires Valid()
      modifies this`tempHumidityHistory
      ensures Valid()
      ensures tempHumidityHistory == TakeLast(old(tempHumidityHistory) + [point], TEMP_HUMIDITY_CAPACITY)
      ensures tempHumidityHistory[|tempHumidityHistory| - 1] == point
    {
      tempHumidityHistory := TakeLast(tempHumidityHistory + [point], TEMP_HUMIDITY_CAPACITY);
    }

    /** `addHistoryRecord`: prepend, keeping the first hundred. */
    method AddHistoryRecord(record: HistoryRecord)
      requires Valid()
      modifies this`history
      ensures Valid()
      ensures history == TakeFirst([record] + old(history), HISTORY_CAPACITY)
      ensures history[0] == record
    {
      PrependEvict(history, record, HISTORY_CAPACITY);
      history := TakeFirst([record] + history, HISTORY_CAPACITY);
    }

    /** `incrementAlertCount`. */
    method IncrementAlertCount()
      requires Valid()
      modifies this`todayAlertCount
      ensures Valid() && todayAlertCount == old(todayAlertCount) + 1
    {
      todayAlertCount := todayAlertCount + 1;
    }

    /** `resetAlertCount`. */
    method ResetAlertCount()
      requires Valid()
      modifies this`todayAlertCount
      ensures Valid() && todayAlertCount == 0
    {
      todayAlertCount := 0;
    }
  }
}
