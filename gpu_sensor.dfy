/**
 * GPU temperature and usage: the first NVIDIA device is refreshed and all
 * its sensors are scanned; every "GPU Core" temperature sensor overwrites the
 * temperature and every "GPU Core" load sensor overwrites the usage, so the
 * last match of each kind wins. The two readings start at 0 outside the
 * try block, so whatever was assigned before the provider throws is kept.
 */
module GpuSensor {
  import opened Wrappers
  import opened Sensors
  import opened CpuSensor

  datatype GpuReading = GpuReading(temperature: real, usage: real)

  /** The sensor rule: a sensor of type `kind` whose name contains "GPU Core". */
  predicate IsGpuCoreSensor(s: Sensor, kind: SensorType) {
    s.kind == kind && Contains(s.name, "GPU Core")
  }

  /** Index of the last sensor of type `kind` matching the rule. */
  function LastGpuCoreSensor(ss: seq<Sensor>, kind: SensorType): (r: Option<nat>)
    ensures r.Some? ==> r.value < |ss| && IsGpuCoreSensor(ss[r.value], kind)
    ensures r.Some? ==> forall j :: r.value < j < |ss| ==> !IsGpuCoreSensor(ss[j], kind)
    ensures r.None? <==> forall j :: 0 <= j < |ss| ==> !IsGpuCoreSensor(ss[j], kind)
  {
    if |ss| == 0 then None
    else if IsGpuCoreSensor(ss[|ss| - 1], kind) then Some(|ss| - 1)
    else LastGpuCoreSensor(ss[..|ss| - 1], kind)
  }

  /** The value of the last match of type `kind` (null as 0), or 0. */
  function LastValue(ss: seq<Sensor>, kind: SensorType): real {
    match LastGpuCoreSensor(ss, kind)
    case None => 0.0
    case Some(j) => ValueOrZero(ss[j].value)
  }

  /** What a scan of `ss` yields. */
  function GpuSelect(ss: seq<Sensor>): GpuReading {
    GpuReading(LastValue(ss, Temperature), LastValue(ss, Load))
  }

  /**
   * The effect of one sensor on the two readings (the `if` / `else if` of the
   * loop body): it updates at most one of them, and a sensor of any type
   * other than temperature or load updates neither.
   */
  function GpuStep(acc: GpuReading, s: Sensor): (r: GpuReading)
    ensures r.temperature == acc.temperature || r.usage == acc.usage
    ensures s.kind != Temperature && s.kind != Load ==> r == acc
    ensures IsGpuCoreSensor(s, Temperature) ==> r == acc.(temperature := ValueOrZero(s.value))
    ensures IsGpuCoreSensor(s, Load) ==> r == acc.(usage := ValueOrZero(s.value))
    ensures !IsGpuCoreSensor(s, Temperature) && !IsGpuCoreSensor(s, Load) ==> r == acc
  {
    if IsGpuCoreSensor(s, Temperature) then acc.(temperature := ValueOrZero(s.value))
    else if IsGpuCoreSensor(s, Load) then acc.(usage := ValueOrZero(s.value))
    else acc
  }

  /** Scanning one more sensor is one step of the loop. */
  lemma GpuSelectAppend(ss: seq<Sensor>, s: Sensor)
    ensures GpuSelect(ss + [s]) == GpuStep(GpuSelect(ss), s)
  {
  }

  /** The GPU readings of a computer, as `GetGPUInfo` returns them, given where its query throws. */
  function GpuInfo(c: Computer, fault: Fault): GpuReading {
    if fault.FailsBeforeScan? then GpuReading(0.0, 0.0)
    else match FirstOfKind(c.hardware, GpuNvidia)
      case None => GpuReading(0.0, 0.0)
      case Some(i) => GpuSelect(ScannedSensors(c.hardware[i], fault))
  }

  /** `GetGPUInfo`: a foreach loop that overwrites `temperature` and `usage`. */
  method GetGpuInfo(c: Computer, fault: Fault) returns (temperature: real, usage: real)
    ensures GpuReading(temperature, usage) == GpuInfo(c, fault)
  {
    temperature, usage := 0.0, 0.0;
    if fault.FailsBeforeScan? {
      return;
    }
    var gpu := FirstOfKind(c.hardware, GpuNvidia);
    if gpu.None? {
      return;
    }
    var sensors := c.hardware[gpu.value].sensors;
    var limit := ScanLimit(fault, |sensors|);
    for i := 0 to limit
      invariant GpuReading(temperature, usage) == GpuSelect(sensors[..i])
    {
      var sensor := sensors[i];
      GpuSelectAppend(sensors[..i], sensor);
      assert sensors[..i + 1] == sensors[..i] + [sensor];
      if sensor.kind == Temperature && Contains(sensor.name, "GPU Core") {
        temperature := ValueOrZero(sensor.value);
      } else if sensor.kind == Load && Contains(sensor.name, "GPU Core") {
        usage := ValueOrZero(sensor.value);
      }
    }
  }

  /** The temperature is the value of the last matching temperature sensor. */
  lemma GpuTemperatureIsLastMatch(ss: seq<Sensor>, j: nat)
    requires j < |ss| && IsGpuCoreSensor(ss[j], Temperature)
    requires forall k :: j < k < |ss| ==> !IsGpuCoreSensor(ss[k], Temperature)
    ensures GpuSelect(ss).temperature == ValueOrZero(ss[j].value)
  {
  }

  /** The usage is the value of the last matching load sensor. */
  lemma GpuUsageIsLastMatch(ss: seq<Sensor>, j: nat)
    requires j < |ss| && IsGpuCoreSensor(ss[j], Load)
    requires forall k :: j < k < |ss| ==> !IsGpuCoreSensor(ss[k], Load)
    ensures GpuSelect(ss).usage == ValueOrZero(ss[j].value)
  {
  }

  /** A reading is 0 when no sensor of its kind matches. */
  lemma GpuNoMatchIsZero(ss: seq<Sensor>)
    ensures (forall k :: 0 <= k < |ss| ==> !IsGpuCoreSensor(ss[k], Temperature)) ==> GpuSelect(ss).temperature == 0.0
    ensures (forall k :: 0 <= k < |ss| ==> !IsGpuCoreSensor(ss[k], Load)) ==> GpuSelect(ss).usage == 0.0
  {
  }

  /** A single sensor never feeds both readings. */
  lemma GpuReadingsFromDistinctSensors(ss: seq<Sensor>)
    requires LastGpuCoreSensor(ss, Temperature).Some? && LastGpuCoreSensor(ss, Load).Some?
    ensures LastGpuCoreSensor(ss, Temperature).value != LastGpuCoreSensor(ss, Load).value
  {
  }

  /** A later match overrides everything before it: the opposite of the CPU rule. */
  lemma {:induction false} GpuLaterMatchOverrides(ss: seq<Sensor>, tail: seq<Sensor>)
    ensures LastGpuCoreSensor(tail, Temperature).Some? ==>
              GpuSelect(ss + tail).temperature == GpuSelect(tail).temperature
    ensures LastGpuCoreSensor(tail, Load).Some? ==>
              GpuSelect(ss + tail).usage == GpuSelect(tail).usage
  {
    forall kind | LastGpuCoreSensor(tail, kind).Some?
      ensures LastValue(ss + tail, kind) == LastValue(tail, kind)
    {
      var j := LastGpuCoreSensor(tail, kind).value;
      assert (ss + tail)[|ss| + j] == tail[j];
      forall k | |ss| + j < k < |ss + tail|
        ensures !IsGpuCoreSensor((ss + tail)[k], kind)
      {
        assert (ss + tail)[k] == tail[k - |ss|];
      }
      assert LastGpuCoreSensor(ss + tail, kind) == Some(|ss| + j);
    }
  }

  /** Each reading is 0 when the provider throws first or there is no NVIDIA device. */
  lemma GpuInfoZeroCases(c: Computer, fault: Fault)
    ensures fault.FailsBeforeScan? || FirstOfKind(c.hardware, GpuNvidia).None? ==>
              GpuInfo(c, fault) == GpuReading(0.0, 0.0)
  {
  }

  /**
   * Without a fault, the readings are the last matches of each type on the
   * first NVIDIA device: the GPU counterpart of `CpuTemperatureIsFirstMatch`.
   */
  lemma GpuInfoIsLastMatch(c: Computer, i: nat, j: nat, k: nat)
    requires i < |c.hardware| && c.hardware[i].kind == GpuNvidia
    requires forall h :: 0 <= h < i ==> c.hardware[h].kind != GpuNvidia
    requires j < |c.hardware[i].sensors| && IsGpuCoreSensor(c.hardware[i].sensors[j], Temperature)
    requires forall m :: j < m < |c.hardware[i].sensors| ==> !IsGpuCoreSensor(c.hardware[i].sensors[m], Temperature)
    requires k < |c.hardware[i].sensors| && IsGpuCoreSensor(c.hardware[i].sensors[k], Load)
    requires forall m :: k < m < |c.hardware[i].sensors| ==> !IsGpuCoreSensor(c.hardware[i].sensors[m], Load)
    ensures GpuInfo(c, NoFault) ==
            GpuReading(ValueOrZero(c.hardware[i].sensors[j].value), ValueOrZero(c.hardware[i].sensors[k].value))
  {
  }

  /**
   * The CPU rule and the GPU rule disagree on a pair of sensors that both
   * match: the CPU temperature comes from the first, the GPU one from the last.
   */
  lemma FirstVersusLast(x: Sensor, y: Sensor)
    requires IsCpuTemperatureSensor(x) && IsCpuTemperatureSensor(y)
    requires IsGpuCoreSensor(x, Temperature) && IsGpuCoreSensor(y, Temperature)
    ensures CpuSelect([x, y]) == ValueOrZero(x.value)
    ensures GpuSelect([x, y]).temperature == ValueOrZero(y.value)
  {
  }
}
