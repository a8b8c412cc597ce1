/**
 * `parseHealthData`: a frame, once parsed into a key/value object, becomes a
 * wear-band reminder, nothing, or a health record with defaults filled in
 * and a corrected timestamp.  The JSON parser itself is a parameter.
 */
module Interpreter {
  import opened Wrappers

  type Int32 = i: int | -0x8000_0000 <= i < 0x8000_0000
  type Int64 = i: int | -0x8000_0000_0000_0000 <= i < 0x8000_0000_0000_0000

  /**
   * A value of the parsed object.  Whole numbers are kept as the parser's
   * `Integer`/`Long`; fractional numbers are carried as they are and never
   * computed with.
   */
  datatype Value = Integer(i: Int64) | Decimal(d: real) | Boolean(b: bool) | Text(s: string) | Null | Structured

  type JsonObject = map<string, Value>

  const WearReminderText: string := "Please wear your band"

  /** One sensor cycle, 5 minutes, in milliseconds. */
  const CycleMillis: int := 5 * 60 * 1000

  datatype HealthRecord = HealthRecord(
    heartRate: Int32, steps: Int32, spo2: Int32, calories: Int32, sleep: Value,
    recovery: Int32, stress: Int32, rhr: Int32, hrv: Int32, bodyTemperature: Value,
    breathingRate: Int32, timestamp: Int64, pending: bool)

  /** What a frame amounts to; the service stores only a `Sample`. */
  datatype Interpretation = Unparsable | WearReminder | MissingHeartRate | Sample(record: HealthRecord)

  /** `Long.intValue()`: the low 32 bits, read as two's complement. */
  function Wrap32(i: Int64): (r: Int32)
    ensures (r - i) % 0x1_0000_0000 == 0
    ensures -0x8000_0000 <= i < 0x8000_0000 ==> r == i
  {
    var m := i % 0x1_0000_0000;
    if m >= 0x8000_0000 then m - 0x1_0000_0000 else m
  }

  predicate InInt64(x: int) {
    -0x8000_0000_0000_0000 <= x < 0x8000_0000_0000_0000
  }

  /** 64-bit two's-complement wrap-around of `Long` arithmetic. */
  function Wrap64(x: int): (r: Int64)
    ensures (r - x) % 0x1_0000_0000_0000_0000 == 0
    ensures InInt64(x) ==> r == x
  {
    var m := x % 0x1_0000_0000_0000_0000;
    if m >= 0x8000_0000_0000_0000 then m - 0x1_0000_0000_0000_0000 else m
  }

  /** `optInt(key, fallback)` on whole-number values. */
  function OptInt(o: JsonObject, key: string, fallback: Int32): (v: Int32)
    ensures FilledFrom(o, key, fallback, v)
  {
    if key in o && o[key].Integer? then Wrap32(o[key].i) else fallback
  }

  /** `optDouble(key, fallback)`, passing a numeric value through untouched. */
  function OptNumber(o: JsonObject, key: string, fallback: real): (v: Value)
    ensures PassedThrough(o, key, fallback, v)
  {
    if key in o && (o[key].Integer? || o[key].Decimal?) then o[key] else Decimal(fallback)
  }

  /** `optBoolean(key, false)`. */
  function OptBool(o: JsonObject, key: string): bool {
    key in o && o[key].Boolean? && o[key].b
  }

  predicate IsWearReminder(o: JsonObject) {
    "message" in o && o["message"] == Text(WearReminderText)
  }

  /** A value `optInt` and `optDouble` cannot read as a number: they give their fallback. */
  predicate NotNumeric(x: Value) {
    x.Null? || x.Boolean? || x.Structured?
  }

  /**
   * The value the object gives for `key`, read as a 32-bit integer: a long
   * is truncated (and kept when it fits), and an absent key or a value that
   * is not a number gives `fallback`.
   */
  predicate FilledFrom(o: JsonObject, key: string, fallback: int, v: int) {
    (key !in o ==> v == fallback)
    && (key in o && NotNumeric(o[key]) ==> v == fallback)
    && (key in o && o[key].Integer? ==> v == Wrap32(o[key].i))
    && (key in o && o[key].Integer? && -0x8000_0000 <= o[key].i < 0x8000_0000 ==> v == o[key].i)
  }

  /** `FilledFrom` for the two fractional fields, which are passed through. */
  predicate PassedThrough(o: JsonObject, key: string, fallback: real, v: Value) {
    (key !in o ==> v == Decimal(fallback))
    && (key in o && NotNumeric(o[key]) ==> v == Decimal(fallback))
    && (key in o && (o[key].Integer? || o[key].Decimal?) ==> v == o[key])
  }

  /** The correction applied to a pending reading: back by `cycleCount` cycles. */
  function CorrectedTimestamp(now: Int64, pending: bool, cycleCount: Int32): (t: Int64)
    ensures !pending ==> t == now
    ensures pending ==> (t - (now - cycleCount * CycleMillis)) % 0x1_0000_0000_0000_0000 == 0
    ensures pending && InInt64(now - cycleCount * CycleMillis) ==> t == now - cycleCount * CycleMillis
  {
    if pending then Wrap64(now - cycleCount * CycleMillis) else now
  }

  /** `parseHealthData` after the object has been parsed. */
  function Interpret(o: JsonObject, now: Int64): (r: Interpretation)
    ensures r.WearReminder? <==> IsWearReminder(o)
    ensures r.MissingHeartRate? <==> !IsWearReminder(o) && "heartRate" !in o
    ensures r.Sample? <==> !IsWearReminder(o) && "heartRate" in o
    ensures r.Sample? ==>
      var h := r.record;
      FilledFrom(o, "heartRate", 72, h.heartRate) && FilledFrom(o, "steps", 0, h.steps)
      && FilledFrom(o, "spo2", 98, h.spo2) && FilledFrom(o, "calories", 0, h.calories)
      && PassedThrough(o, "sleep", 7.0, h.sleep) && FilledFrom(o, "stress", 30, h.stress)
      && PassedThrough(o, "bodyTemperature", 36.5, h.bodyTemperature)
      && FilledFrom(o, "breathingRate", 16, h.breathingRate)
      && h.recovery == 0 && h.rhr == 60 && h.hrv == 45
      && h.pending == OptBool(o, "pending")
      && h.timestamp == CorrectedTimestamp(now, h.pending, OptInt(o, "cycleCount", 0))
  {
    if IsWearReminder(o) then WearReminder
    else if "heartRate" !in o then MissingHeartRate
    else
      var pending := OptBool(o, "pending");
      Sample(HealthRecord(
        heartRate := OptInt(o, "heartRate", 72),
        steps := OptInt(o, "steps", 0),
        spo2 := OptInt(o, "spo2", 98),
        calories := OptInt(o, "calories", 0),
        sleep := OptNumber(o, "sleep", 7.0),
        recovery := 0,
        stress := OptInt(o, "stress", 30),
        rhr := 60,
        hrv := 45,
        bodyTemperature := OptNumber(o, "bodyTemperature", 36.5),
        breathingRate := OptInt(o, "breathingRate", 16),
        timestamp := CorrectedTimestamp(now, pending, OptInt(o, "cycleCount", 0)),
        pending := pending))
  }

  /** `parseHealthData(frame)`, with `parse` standing for the `JSONObject(String)` constructor. */
  function ParseHealthData(frame: string, parse: string -> Option<JsonObject>, now: Int64): (r: Interpretation)
    ensures r.Unparsable? <==> parse(frame).None?
    ensures parse(frame).Some? ==> r == Interpret(parse(frame).value, now)
  {
    match parse(frame)
    case None => Unparsable
    case Some(o) => Interpret(o, now)
  }

  /**
   * A clock reading of the present era lies far from the 64-bit limits, and
   * then a pending reading is backdated by exactly `cycleCount` five-minute
   * cycles: the `Long` subtraction cannot wrap.
   */
  lemma BackdatingIsExact(o: JsonObject, now: Int64)
    requires 0 <= now < 0x4000_0000_0000_0000
    requires !IsWearReminder(o) && "heartRate" in o && OptBool(o, "pending")
    ensures Interpret(o, now).record.timestamp == now - OptInt(o, "cycleCount", 0) * CycleMillis
  {
    var c := OptInt(o, "cycleCount", 0);
    assert -0x8000_0000 * CycleMillis <= c * CycleMillis < 0x8000_0000 * CycleMillis;
  }

  /** A reading with only a heart rate and steps gets every documented default. */
  lemma DefaultsFillAbsentFields(now: Int64)
    ensures Interpret(map["heartRate" := Integer(80), "steps" := Integer(120)], now)
      == Sample(HealthRecord(80, 120, 98, 0, Decimal(7.0), 0, 30, 60, 45, Decimal(36.5), 16, now, false))
  {
  }

  /** The reminder frame never yields a record, whatever else it carries. */
  lemma ReminderYieldsNoRecord(o: JsonObject, now: Int64)
    requires "message" in o && o["message"] == Text(WearReminderText)
    ensures Interpret(o, now) == WearReminder
  {
  }

  /**
   * The heart-rate default of 72 is used when `heartRate` is present but
   * holds null, a boolean or a nested value.
   */
  lemma HeartRateDefaultWhenNotNumeric(o: JsonObject, now: Int64)
    requires !IsWearReminder(o) && "heartRate" in o && NotNumeric(o["heartRate"])
    ensures Interpret(o, now).Sample? && Interpret(o, now).record.heartRate == 72
  {
  }
}
