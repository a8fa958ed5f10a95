/**
 * The monitor form's own state and its update cycle: the total memory read
 * once at load, the refresh rate (seconds, 1 to 60) and the timer interval
 * derived from it, and the snapshot one timer tick computes from the
 * performance counters and the hardware-monitoring provider.
 */
module Monitor {
  import opened Wrappers
  import opened Sensors
  import opened CpuSensor
  import opened GpuSensor
  import opened Metrics

  /** What the four performance counters read on one tick. */
  datatype CounterReadings = CounterReadings(
    cpuUsage: real,
    availableMB: U64,
    diskReadBytesPerSec: real,
    diskWriteBytesPerSec: real)

  /** Everything one tick shows. */
  datatype Snapshot = Snapshot(
    cpuUsage: real,
    availableMB: U64,
    diskReadMBPerSec: real,
    diskWriteMBPerSec: real,
    cpuTemperature: TemperatureDisplay,
    gpuTemperature: TemperatureDisplay,
    gpuUsage: real,
    memoryUsedPercent: real)

  const MIN_REFRESH_SECONDS: real := 1.0
  const MAX_REFRESH_SECONDS: real := 60.0

  class PerformanceMonitor {
    var totalMemory: U64
    /** The refresh-rate control's value, a decimal number of seconds. */
    var refreshSeconds: real
    /** The update timer's interval. */
    var timerIntervalMs: int

    ghost predicate Valid()
      reads this
    {
      && totalMemory >= 1
      && MIN_REFRESH_SECONDS <= refreshSeconds <= MAX_REFRESH_SECONDS
      && timerIntervalMs == IntervalMs(refreshSeconds)
    }

    /** The form's construction and `Form1_Load`: read the total memory, start the timer at 1 s. */
    constructor Load(q: MemoryQuery)
      ensures Valid()
      ensures totalMemory == ResolveTotalMemory(q, 0)
      ensures refreshSeconds == 1.0 && timerIntervalMs == 1000
    {
      totalMemory := 0;
      refreshSeconds := 1.0;
      timerIntervalMs := 0;
      new;
      GetTotalMemory(q);
      timerIntervalMs := IntervalMs(refreshSeconds);
    }

    /** `GetTotalMemory`: the first row's total, 1 on failure, never left at 0. */
    method GetTotalMemory(q: MemoryQuery)
      modifies this`totalMemory
      ensures totalMemory == ResolveTotalMemory(q, old(totalMemory))
    {
      match q {
        case QueryFailed =>
          totalMemory := 1;
        case QueryRows(rows) =>
          if |rows| > 0 {
            totalMemory := rows[0];
          }
      }
      if totalMemory == 0 {
        totalMemory := 1;
      }
    }

    /**
     * Setting the refresh-rate control and its `ValueChanged` handler: a
     * value outside [1, 60] is refused and nothing changes; otherwise the
     * timer interval becomes the new value in milliseconds. Nothing else
     * changes.
     */
    method SetRefreshRate(seconds: real) returns (accepted: bool)
      requires Valid()
      modifies this
      ensures Valid()
      ensures accepted <==> MIN_REFRESH_SECONDS <= seconds <= MAX_REFRESH_SECONDS
      ensures accepted ==> refreshSeconds == seconds && timerIntervalMs == IntervalMs(seconds)
      ensures accepted ==> timerIntervalMs as real <= seconds * 1000.0 < timerIntervalMs as real + 1.0
      ensures !accepted ==> refreshSeconds == old(refreshSeconds) && timerIntervalMs == old(timerIntervalMs)
      ensures 1000 <= timerIntervalMs <= 60000
      ensures totalMemory == old(totalMemory)
    {
      accepted := MIN_REFRESH_SECONDS <= seconds <= MAX_REFRESH_SECONDS;
      if accepted {
        refreshSeconds := seconds;
        timerIntervalMs := IntervalMs(refreshSeconds);
      }
    }

    /**
     * `UpdatePerformanceData`: each field comes from its own source only
     * (the CPU and GPU queries each with their own fault), and the memory
     * percentage divides by a total that is at least 1.
     */
    method UpdatePerformanceData(counters: CounterReadings, computer: Computer, cpuFault: Fault, gpuFault: Fault)
      returns (s: Snapshot)
      requires Valid()
      ensures s.cpuUsage == counters.cpuUsage && s.availableMB == counters.availableMB
      ensures s.diskReadMBPerSec * 1048576.0 == counters.diskReadBytesPerSec
      ensures s.diskWriteMBPerSec * 1048576.0 == counters.diskWriteBytesPerSec
      ensures s.cpuTemperature == ShowTemperature(CpuTemperature(computer, cpuFault))
      ensures s.gpuTemperature == ShowTemperature(GpuInfo(computer, gpuFault).temperature)
      ensures s.gpuUsage == GpuInfo(computer, gpuFault).usage
      ensures s.memoryUsedPercent == MemoryUsedPercent(totalMemory, counters.availableMB)
      ensures counters.availableMB * BYTES_PER_MB <= totalMemory ==> 0.0 <= s.memoryUsedPercent <= 100.0
    {
      var diskRead := BytesToMegabytes(counters.diskReadBytesPerSec);
      var diskWrite := BytesToMegabytes(counters.diskWriteBytesPerSec);
      var cpuTemp := GetCpuTemperature(computer, cpuFault);
      var gpuTemp, gpuUsage := GetGpuInfo(computer, gpuFault);
      s := Snapshot(
        counters.cpuUsage,
        counters.availableMB,
        diskRead,
        diskWrite,
        ShowTemperature(cpuTemp),
        ShowTemperature(gpuTemp),
        gpuUsage,
        MemoryUsedPercent(totalMemory, counters.availableMB));
    }
  }

  /**
   * When a query of the hardware-monitoring provider throws before any sensor
   * is read, its readings show "Not available" (and a GPU usage of 0).
   */
  lemma ProviderFailureShowsNotAvailable(c: Computer, cpuFault: Fault, gpuFault: Fault)
    ensures cpuFault.FailsBeforeScan? ==> ShowTemperature(CpuTemperature(c, cpuFault)) == NotAvailable
    ensures gpuFault.FailsBeforeScan? ==> ShowTemperature(GpuInfo(c, gpuFault).temperature) == NotAvailable
    ensures gpuFault.FailsBeforeScan? ==> GpuInfo(c, gpuFault).usage == 0.0
  {
  }

  /**
   * A GPU that reports 70 degrees is still shown while the CPU query throws
   * on the same computer: one query's failure does not reach the other.
   */
  lemma GpuShownWhileCpuQueryFails(c: Computer, i: nat, gpuFault: Fault)
    requires i < |c.hardware| && c.hardware[i].kind == GpuNvidia
    requires forall h :: 0 <= h < i ==> c.hardware[h].kind != GpuNvidia
    requires c.hardware[i].sensors == [Sensor(Temperature, "GPU Core", Some(70.0))]
    requires gpuFault.NoFault? || (gpuFault.FailsAtSensor? && gpuFault.index > 0)
    ensures ShowTemperature(CpuTemperature(c, FailsBeforeScan)) == NotAvailable
    ensures ShowTemperature(GpuInfo(c, gpuFault).temperature) == Celsius(70.0)
  {
  }
}
