/**
 * The hardware-monitoring provider as plain data: a computer is a list of
 * hardware devices, each with a list of sensors carrying a type, a name and a
 * possibly missing value. The provider may throw while it is being queried:
 * each query takes a `Fault` that names where, if anywhere, it throws.
 */
module Sensors {
  import opened Wrappers

  datatype HardwareType = Cpu | GpuNvidia | GpuAmd | GpuIntel | Memory | Motherboard | Storage | Network

  datatype SensorType = Temperature | Load | Clock | Voltage | Power | Fan | Data

  datatype Sensor = Sensor(kind: SensorType, name: string, value: Option<real>)

  datatype Hardware = Hardware(kind: HardwareType, sensors: seq<Sensor>)

  /**
   * Where one query of the provider throws, if it does. Each query (CPU
   * temperature, GPU readings) has its own try block and its own fault.
   */
  datatype Fault =
    | NoFault
      /** Finding the device or refreshing it (`Update`) throws. */
    | FailsBeforeScan
      /** The exception is raised while sensor `index` of the device is examined. */
    | FailsAtSensor(index: nat)

  datatype Computer = Computer(hardware: seq<Hardware>)

  /** `sensor.Value ?? 0`: a null reading counts as 0. */
  function ValueOrZero(v: Option<real>): (r: real)
    ensures v.Some? ==> r == v.value
    ensures v.None? ==> r == 0.0
  {
    v.GetOr(0.0)
  }

  /** `sub` starts `s`. */
  predicate StartsWith(s: string, sub: string) {
    |sub| <= |s| && s[..|sub|] == sub
  }

  /** Ordinal substring search, as .NET's `string.Contains(string)`. */
  predicate Contains(s: string, sub: string)
    decreases |s|
  {
    StartsWith(s, sub) || (|s| > 0 && Contains(s[1..], sub))
  }

  /** `sub` occurs in `s` at position `i`: the reference meaning of containment. */
  ghost predicate OccursAt(s: string, sub: string, i: int) {
    0 <= i && i + |sub| <= |s| && s[i..i + |sub|] == sub
  }

  lemma {:induction false} ContainsIffOccurs(s: string, sub: string)
    ensures Contains(s, sub) <==> exists i :: OccursAt(s, sub, i)
    decreases |s|
  {
    if StartsWith(s, sub) {
      assert OccursAt(s, sub, 0);
    } else if |s| == 0 {
      assert forall i :: !OccursAt(s, sub, i);
    } else {
      ContainsIffOccurs(s[1..], sub);
      if Contains(s[1..], sub) {
        var i :| OccursAt(s[1..], sub, i);
        assert s[1..][i..i + |sub|] == s[i + 1..i + 1 + |sub|];
        assert OccursAt(s, sub, i + 1);
      } else {
        forall i | OccursAt(s, sub, i)
          ensures false
        {
          assert i != 0;
          assert s[1..][i - 1..i - 1 + |sub|] == s[i..i + |sub|];
          assert OccursAt(s[1..], sub, i - 1);
        }
      }
    }
  }

  /** LINQ's `FirstOrDefault(h => h.HardwareType == kind)`, as an index. */
  function FirstOfKind(hw: seq<Hardware>, kind: HardwareType): (r: Option<nat>)
    ensures r.Some? ==> r.value < |hw| && hw[r.value].kind == kind
    ensures r.Some? ==> forall j :: 0 <= j < r.value ==> hw[j].kind != kind
    ensures r.None? <==> forall j :: 0 <= j < |hw| ==> hw[j].kind != kind
  {
    if |hw| == 0 then None
    else if hw[0].kind == kind then Some(0)
    else match FirstOfKind(hw[1..], kind)
      case None => None
      case Some(i) => Some(i + 1)
  }

  /** Devices appended after the first one of a kind do not change which one is first. */
  lemma FirstOfKindPrefix(hw: seq<Hardware>, extra: seq<Hardware>, kind: HardwareType)
    requires FirstOfKind(hw, kind).Some?
    ensures FirstOfKind(hw + extra, kind) == FirstOfKind(hw, kind)
  {
    var i := FirstOfKind(hw, kind).value;
    assert (hw + extra)[i] == hw[i];
  }

  /** How many sensors of a device of `n` sensors are examined before the fault, if any. */
  function ScanLimit(fault: Fault, n: nat): (limit: nat)
    ensures limit <= n
    ensures fault.NoFault? ==> limit == n
    ensures fault.FailsBeforeScan? ==> limit == 0
    ensures fault.FailsAtSensor? ==> limit == if fault.index < n then fault.index else n
  {
    match fault
    case NoFault => n
    case FailsBeforeScan => 0
    case FailsAtSensor(k) => if k < n then k else n
  }

  /** The sensors of `h` that a scan examines before the provider throws. */
  function ScannedSensors(h: Hardware, fault: Fault): (ss: seq<Sensor>)
    ensures ss <= h.sensors
    ensures fault.NoFault? ==> ss == h.sensors
    ensures fault.FailsBeforeScan? ==> ss == []
  {
    h.sensors[..ScanLimit(fault, |h.sensors|)]
  }
}
