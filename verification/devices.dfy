/**
 * The smart-home device list: toggling a device by id, and the
 * periodic rewrite of every temperature sensor's status to a fresh
 * reading. `Math.random` is a parameter: one draw per device, as the map
 * over the list asks for one each time it meets a sensor.
 */
module Devices {

  /** A device; `kind` is the `type` field, `status` its displayed text. */
  datatype Device = Device(id: int, name: string, kind: string, status: string)

  /** Device types that get an on/off button. */
  const SwitchableKinds: seq<string> := ["Light", "AC", "Door"]

  predicate IsSwitchable(kind: string) {
    kind in SwitchableKinds
  }

  /** Exactly lights, air conditioners and doors can be switched. */
  lemma SwitchableExactly(kind: string)
    ensures IsSwitchable(kind) <==> kind == "Light" || kind == "AC" || kind == "Door"
  {
  }

  predicate DistinctIds(ds: seq<Device>) {
    forall i, j :: 0 <= i < j < |ds| ==> ds[i].id != ds[j].id
  }

  /** The five devices the manager starts with. */
  function InitialDevices(): (ds: seq<Device>)
    ensures |ds| == 5 && DistinctIds(ds)
    ensures forall i :: 0 <= i < |ds| ==> ds[i].id == i + 1
  {
    [ Device(1, "ไฟห้องนั่งเล่น", "Light", "off"),
      Device(2, "แอร์ห้องนอน", "AC", "on"),
      Device(3, "กล้องวงจรปิด", "Camera", "active"),
      Device(4, "เครื่องวัดอุณหภูมิ", "Sensor", "27°C"),
      Device(5, "ประตูหน้าบ้าน", "Door", "off") ]
  }

  /** A toggled status: "on" becomes "off", anything else becomes "on". */
  function Toggled(status: string): (r: string)
    ensures r == "off" <==> status == "on"
    ensures r == "on" <==> status != "on"
  {
    if status == "on" then "off" else "on"
  }

  /** Toggling twice restores an "on" or "off" status. */
  lemma ToggledTwice(status: string)
    requires status == "on" || status == "off"
    ensures Toggled(Toggled(status)) == status
  {
  }

  /** `toggleDevice`: every entry with the id gets its status toggled; all else stays. */
  function ToggleDevice(ds: seq<Device>, id: int): (r: seq<Device>)
    ensures |r| == |ds|
    ensures forall i :: 0 <= i < |ds| && ds[i].id != id ==> r[i] == ds[i]
    ensures forall i :: 0 <= i < |ds| && ds[i].id == id ==> r[i] == ds[i].(status := Toggled(ds[i].status))
  {
    if ds == [] then []
    else
      var d := ds[0];
      [if d.id == id then d.(status := Toggled(d.status)) else d] + ToggleDevice(ds[1..], id)
  }

  /** Toggling the same device twice restores the list when its status was "on" or "off". */
  lemma ToggleDeviceTwice(ds: seq<Device>, id: int)
    requires forall i :: 0 <= i < |ds| && ds[i].id == id ==> ds[i].status == "on" || ds[i].status == "off"
    ensures ToggleDevice(ToggleDevice(ds, id), id) == ds
  {
    var r := ToggleDevice(ToggleDevice(ds, id), id);
    forall i | 0 <= i < |ds| ensures r[i] == ds[i] {
      if ds[i].id == id {
        ToggledTwice(ds[i].status);
      }
    }
  }

  /** Toggling keeps ids, names and types, so distinct ids stay distinct. */
  lemma ToggleKeepsIdentity(ds: seq<Device>, id: int)
    ensures var r := ToggleDevice(ds, id);
      forall i :: 0 <= i < |ds| ==> r[i].id == ds[i].id && r[i].name == ds[i].name && r[i].kind == ds[i].kind
    ensures DistinctIds(ds) ==> DistinctIds(ToggleDevice(ds, id))
  {
    var r := ToggleDevice(ds, id);
    assert forall i :: 0 <= i < |ds| ==> r[i].id == ds[i].id;
  }

  /** The decimal digit character for d. */
  function DigitChar(d: nat): (c: char)
    requires d < 10
    ensures '0' <= c <= '9'
  {
    ('0' as int + d) as char
  }

  /** `${n}` for a natural number: its decimal digits, most significant first. */
  function Decimal(n: nat): (s: string)
    ensures |s| >= 1
    ensures forall i :: 0 <= i < |s| ==> '0' <= s[i] <= '9'
    decreases n
  {
    if n < 10 then [DigitChar(n)] else Decimal(n / 10) + [DigitChar(n % 10)]
  }

  /** The number a string of decimal digits denotes. */
  function DecimalValue(s: string): nat
    requires forall i :: 0 <= i < |s| ==> '0' <= s[i] <= '9'
    decreases |s|
  {
    if s == [] then 0
    else 10 * DecimalValue(s[..|s| - 1]) + (s[|s| - 1] as int - '0' as int)
  }

  /** Reading back the digits gives the number that was written. */
  lemma {:induction false} DecimalRoundTrip(n: nat)
    ensures DecimalValue(Decimal(n)) == n
    decreases n
  {
    if n >= 10 {
      var s := Decimal(n);
      DecimalRoundTrip(n / 10);
      assert s[..|s| - 1] == Decimal(n / 10);
    }
  }

  /** `Math.floor(25 + r * 5)` for a draw r of `Math.random`. */
  function SensorReading(r: real): (t: int)
    requires 0.0 <= r < 1.0
    ensures 25 <= t <= 29
    ensures t as real <= 25.0 + r * 5.0 < t as real + 1.0
  {
    (25.0 + r * 5.0).Floor
  }

  /** The sensor's status text, e.g. "27°C". */
  function SensorLabel(t: nat): string {
    Decimal(t) + "°C"
  }

  /** A sensor label for a reading of 25 to 29 degrees is "2" and the units digit before "°C". */
  lemma SensorLabelDigits(t: nat)
    requires 25 <= t <= 29
    ensures SensorLabel(t) == ['2', DigitChar(t - 20)] + "°C"
  {
    assert Decimal(t / 10) == ['2'];
  }

  /**
   * The periodic rewrite: each Sensor's status becomes the label of its
   * draw; every other device, and every id, name and type, stays.
   */
  function SensorUpdate(ds: seq<Device>, draws: seq<real>): (r: seq<Device>)
    requires |draws| == |ds|
    requires forall i :: 0 <= i < |draws| ==> 0.0 <= draws[i] < 1.0
    ensures |r| == |ds|
    ensures forall i :: 0 <= i < |ds| && ds[i].kind != "Sensor" ==> r[i] == ds[i]
    ensures forall i :: 0 <= i < |ds| && ds[i].kind == "Sensor" ==>
      r[i] == ds[i].(status := SensorLabel(SensorReading(draws[i])))
  {
    if ds == [] then []
    else
      var d := ds[0];
      [if d.kind == "Sensor" then d.(status := SensorLabel(SensorReading(draws[0]))) else d]
        + SensorUpdate(ds[1..], draws[1..])
  }

  /** The labels a reading of 25 to 29 degrees can produce. */
  const SensorLabels: set<string> := {"25°C", "26°C", "27°C", "28°C", "29°C"}

  lemma SensorLabelRange(t: nat)
    requires 25 <= t <= 29
    ensures SensorLabel(t) in SensorLabels
  {
    var d := Decimal(t);
    assert d == Decimal(2) + [DigitChar(t - 20)];
    assert Decimal(2) == "2";
    if t == 25 {
      assert d == "25";
      assert SensorLabel(t) == "25°C";
    } else if t == 26 {
      assert d == "26";
      assert SensorLabel(t) == "26°C";
    } else if t == 27 {
      assert d == "27";
      assert SensorLabel(t) == "27°C";
    } else if t == 28 {
      assert d == "28";
      assert SensorLabel(t) == "28°C";
    } else {
      assert d == "29";
      assert SensorLabel(t) == "29°C";
    }
  }

  /** After the rewrite every sensor shows one of 25°C to 29°C. */
  lemma SensorUpdateRange(ds: seq<Device>, draws: seq<real>, i: int)
    requires |draws| == |ds|
    requires forall k :: 0 <= k < |draws| ==> 0.0 <= draws[k] < 1.0
    requires 0 <= i < |ds| && ds[i].kind == "Sensor"
    ensures SensorUpdate(ds, draws)[i].status in SensorLabels
  {
    SensorLabelRange(SensorReading(draws[i]));
  }

  /** The rewrite keeps ids, so distinct ids stay distinct. */
  lemma SensorUpdateKeepsIds(ds: seq<Device>, draws: seq<real>)
    requires |draws| == |ds|
    requires forall k :: 0 <= k < |draws| ==> 0.0 <= draws[k] < 1.0
    requires DistinctIds(ds)
    ensures DistinctIds(SensorUpdate(ds, draws))
  {
    var r := SensorUpdate(ds, draws);
    assert forall i :: 0 <= i < |ds| ==> r[i].id == ds[i].id;
  }
}
