/**
 * Pure rules the telemetry views apply to inbound values: clamping into the
 * display range, threshold classification and volume conversion, and the
 * shape of a decoded inbound message.
 */
module Readings {
  import opened Wrappers

  function Max(a: real, b: real): real {
    if a >= b then a else b
  }

  function Min(a: real, b: real): real {
    if a <= b then a else b
  }

  /** `Math.max(0, Math.min(100, v))`: a reading forced into [0, 100]. */
  function Clamp(v: real): (r: real)
    ensures 0.0 <= r <= 100.0
    ensures 0.0 <= v <= 100.0 ==> r == v
    ensures v < 0.0 ==> r == 0.0
    ensures v > 100.0 ==> r == 100.0
  {
    Max(0.0, Min(100.0, v))
  }

  /** Clamping an already clamped value changes nothing. */
  lemma ClampIdempotent(v: real)
    ensures Clamp(Clamp(v)) == Clamp(v)
  {
  }

  /** Clamping never reverses the order of two readings. */
  lemma ClampMonotone(a: real, b: real)
    requires a <= b
    ensures Clamp(a) <= Clamp(b)
  {
  }

  /** Tank status shown next to the level. */
  datatype TankStatus = Low | Normal | Full

  function ClassifyLevel(level: real): (s: TankStatus)
    ensures s == Low <==> level < 20.0
    ensures s == Full <==> level > 90.0
    ensures s == Normal <==> 20.0 <= level <= 90.0
  {
    if level < 20.0 then Low
    else if level > 90.0 then Full
    else Normal
  }

  /** Soil-moisture status of the watering view. */
  datatype MoistureStatus = VeryDry | Medium | VeryWet

  function ClassifyMoisture(moisture: real): (s: MoistureStatus)
    ensures s == VeryDry <==> moisture < 30.0
    ensures s == VeryWet <==> moisture > 70.0
    ensures s == Medium <==> 30.0 <= moisture <= 70.0
  {
    if moisture < 30.0 then VeryDry
    else if moisture > 70.0 then VeryWet
    else Medium
  }

  /** Volume in millilitres of a tank filled to `level` percent. */
  function Millilitres(level: real, capacityMl: real): (ml: real)
    requires 0.0 <= level <= 100.0 && capacityMl >= 0.0
    ensures 0.0 <= ml <= capacityMl
    ensures level == 100.0 ==> ml == capacityMl
    ensures level == 0.0 ==> ml == 0.0
  {
    var fraction := level / 100.0;
    assert 0.0 <= fraction * capacityMl <= capacityMl by {
      assert 0.0 <= (1.0 - fraction) * capacityMl;
    }
    fraction * capacityMl
  }

  /** Volume in litres of a tank filled to `level` percent. */
  function Litres(level: real, capacityMl: real): (l: real)
    requires 0.0 <= level <= 100.0 && capacityMl >= 0.0
    ensures 0.0 <= l <= capacityMl / 1000.0
    ensures l * 1000.0 == Millilitres(level, capacityMl)
  {
    Millilitres(level, capacityMl) / 1000.0
  }

  /** A fuller tank never shows less water. */
  lemma MillilitresMonotone(a: real, b: real, capacityMl: real)
    requires 0.0 <= a <= b <= 100.0 && capacityMl >= 0.0
    ensures Millilitres(a, capacityMl) <= Millilitres(b, capacityMl)
  {
    assert a / 100.0 <= b / 100.0;
  }

  /**
   * Fields of a JSON object received on a socket; each may be absent.
   * Tank feeds use `amount`, the watering feed the other four.
   */
  datatype Fields = Fields(
    amount: Option<real>,
    moisture: Option<real>,
    temperature: Option<real>,
    watering: Option<bool>,
    waterAmount: Option<real>)

  /** An inbound message: either text that does not parse to an object, or the decoded fields. */
  datatype Inbound = Malformed | Decoded(fields: Fields)

  /** The tank views' `onmessage`: a present `amount` replaces the level, clamped. */
  function ApplyAmount(level: real, msg: Inbound): (r: real)
    ensures msg.Decoded? && msg.fields.amount.Some? ==> r == Clamp(msg.fields.amount.value)
    ensures msg.Malformed? || msg.fields.amount.None? ==> r == level
  {
    match msg
    case Malformed => level
    case Decoded(f) =>
      match f.amount
      case Some(a) => Clamp(a)
      case None => level
  }

  /** A level in range stays in range whatever message arrives. */
  lemma ApplyAmountInRange(level: real, msg: Inbound)
    requires 0.0 <= level <= 100.0
    ensures 0.0 <= ApplyAmount(level, msg) <= 100.0
  {
  }

  /** Readings are a last-value cache: a message with `amount` discards the earlier level. */
  lemma LastAmountWins(a: real, b: real, msg: Inbound)
    requires msg.Decoded? && msg.fields.amount.Some?
    ensures ApplyAmount(a, msg) == ApplyAmount(b, msg)
  {
  }
}
