/**
 * CPU temperature: the first CPU device is refreshed and its sensors are
 * scanned in order; the first temperature sensor whose name mentions the
 * package or core #1 decides the result, and the scan stops there. Every
 * failure reads as 0.
 */
module CpuSensor {
  import opened Wrappers
  import opened Sensors

  /** The sensor rule: a temperature whose name contains "Package" or "Core #1". */
  predicate IsCpuTemperatureSensor(s: Sensor) {
    s.kind == Temperature && (Contains(s.name, "Package") || Contains(s.name, "Core #1"))
  }

  /** Index of the first sensor matching the rule. */
  function FirstCpuTemperatureSensor(ss: seq<Sensor>): (r: Option<nat>)
    ensures r.Some? ==> r.value < |ss| && IsCpuTemperatureSensor(ss[r.value])
    ensures r.Some? ==> forall j :: 0 <= j < r.value ==> !IsCpuTemperatureSensor(ss[j])
    ensures r.None? <==> forall j :: 0 <= j < |ss| ==> !IsCpuTemperatureSensor(ss[j])
  {
    if |ss| == 0 then None
    else if IsCpuTemperatureSensor(ss[0]) then Some(0)
    else match FirstCpuTemperatureSensor(ss[1..])
      case None => None
      case Some(i) => Some(i + 1)
  }

  /** What a scan of `ss` returns: the first match's value (null as 0), or 0. */
  function CpuSelect(ss: seq<Sensor>): real {
    match FirstCpuTemperatureSensor(ss)
    case None => 0.0
    case Some(j) => ValueOrZero(ss[j].value)
  }

  /** The temperature `GetCPUTemperature` reports for a computer, given where its query throws. */
  function CpuTemperature(c: Computer, fault: Fault): real {
    if fault.FailsBeforeScan? then 0.0
    else match FirstOfKind(c.hardware, Cpu)
      case None => 0.0
      case Some(i) => CpuSelect(ScannedSensors(c.hardware[i], fault))
  }

  /** `GetCPUTemperature`: a foreach search with an early return. */
  method GetCpuTemperature(c: Computer, fault: Fault) returns (t: real)
    ensures t == CpuTemperature(c, fault)
  {
    if fault.FailsBeforeScan? {
      return 0.0;
    }
    var cpu := FirstOfKind(c.hardware, Cpu);
    if cpu.None? {
      return 0.0;
    }
    var sensors := c.hardware[cpu.value].sensors;
    var limit := ScanLimit(fault, |sensors|);
    var i := 0;
    while i < limit
      invariant 0 <= i <= limit
      invariant forall k :: 0 <= k < i ==> !IsCpuTemperatureSensor(sensors[k])
    {
      if IsCpuTemperatureSensor(sensors[i]) {
        return ValueOrZero(sensors[i].value);
      }
      i := i + 1;
    }
    return 0.0;
  }

  /** The result is the value of the first matching sensor, and of no other. */
  lemma CpuSelectIsFirstMatch(ss: seq<Sensor>, j: nat)
    requires j < |ss| && IsCpuTemperatureSensor(ss[j])
    requires forall k :: 0 <= k < j ==> !IsCpuTemperatureSensor(ss[k])
    ensures CpuSelect(ss) == ValueOrZero(ss[j].value)
  {
  }

  /** Without a matching sensor the result is 0. */
  lemma CpuSelectNoMatch(ss: seq<Sensor>)
    requires forall k :: 0 <= k < |ss| ==> !IsCpuTemperatureSensor(ss[k])
    ensures CpuSelect(ss) == 0.0
  {
  }

  /**
   * A first match with a null value yields 0 and stops the scan: a later
   * matching sensor that does have a value is never reached.
   */
  lemma CpuNullFirstMatchStops(ss: seq<Sensor>, j: nat, later: nat)
    requires j < later < |ss|
    requires IsCpuTemperatureSensor(ss[j]) && ss[j].value.None?
    requires forall k :: 0 <= k < j ==> !IsCpuTemperatureSensor(ss[k])
    requires IsCpuTemperatureSensor(ss[later]) && ss[later].value.Some?
    ensures CpuSelect(ss) == 0.0
  {
  }

  /** Once a match is present, sensors after it never affect the result. */
  lemma CpuLaterSensorsIgnored(ss: seq<Sensor>, tail: seq<Sensor>)
    requires FirstCpuTemperatureSensor(ss).Some?
    ensures CpuSelect(ss + tail) == CpuSelect(ss)
  {
    var j := FirstCpuTemperatureSensor(ss).value;
    assert (ss + tail)[j] == ss[j];
    forall k | 0 <= k < j
      ensures !IsCpuTemperatureSensor((ss + tail)[k])
    {
      assert (ss + tail)[k] == ss[k];
    }
    CpuSelectIsFirstMatch(ss + tail, j);
  }

  /**
   * The ways to read 0: the query throws before the scan; there is no CPU
   * device; the first CPU device has no matching sensor; the query throws at
   * sensor `k` before any matching sensor was examined.
   */
  lemma CpuTemperatureZeroCases(c: Computer, fault: Fault)
    ensures fault.FailsBeforeScan? ==> CpuTemperature(c, fault) == 0.0
    ensures FirstOfKind(c.hardware, Cpu).None? ==> CpuTemperature(c, fault) == 0.0
    ensures var first := FirstOfKind(c.hardware, Cpu);
            first.Some? &&
            (forall j :: 0 <= j < |c.hardware[first.value].sensors| ==>
               !IsCpuTemperatureSensor(c.hardware[first.value].sensors[j]))
            ==> CpuTemperature(c, fault) == 0.0
    ensures var first := FirstOfKind(c.hardware, Cpu);
            first.Some? && fault.FailsAtSensor? &&
            (forall j :: 0 <= j < fault.index && j < |c.hardware[first.value].sensors| ==>
               !IsCpuTemperatureSensor(c.hardware[first.value].sensors[j]))
            ==> CpuTemperature(c, fault) == 0.0
  {
  }

  /** Only the first CPU device is consulted: devices listed after it change nothing. */
  lemma CpuOnlyFirstDeviceConsulted(hw: seq<Hardware>, extra: seq<Hardware>, fault: Fault)
    requires FirstOfKind(hw, Cpu).Some?
    ensures CpuTemperature(Computer(hw + extra), fault) == CpuTemperature(Computer(hw), fault)
  {
    FirstOfKindPrefix(hw, extra, Cpu);
    var i := FirstOfKind(hw, Cpu).value;
    assert (hw + extra)[i] == hw[i];
  }

  /**
   * When the query does not throw before reaching it, the reported
   * temperature is the first match on the first CPU device.
   */
  lemma CpuTemperatureIsFirstMatch(c: Computer, fault: Fault, i: nat, j: nat)
    requires fault.NoFault? || (fault.FailsAtSensor? && j < fault.index)
    requires i < |c.hardware| && c.hardware[i].kind == Cpu
    requires forall k :: 0 <= k < i ==> c.hardware[k].kind != Cpu
    requires j < |c.hardware[i].sensors| && IsCpuTemperatureSensor(c.hardware[i].sensors[j])
    requires forall k :: 0 <= k < j ==> !IsCpuTemperatureSensor(c.hardware[i].sensors[k])
    ensures CpuTemperature(c, fault) == ValueOrZero(c.hardware[i].sensors[j].value)
  {
  }
}
