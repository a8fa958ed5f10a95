# PC Performance Monitor — sampling core in Dafny

PC Performance Monitor is a Windows Forms application. On each tick of a
timer it reads four performance counters: CPU load, available memory, and
disk read and write rates. It also asks a hardware-monitoring provider for
CPU and GPU temperatures and GPU load, and shows the results. This project
models the logic of the form that sits between those providers and the
labels:

- **Sensor selection** (`Sensors`, `CpuSensor`, `GpuSensor`).
  - The provider is plain data: a `Computer` holds a list of `Hardware`
    devices, and each device holds `Sensor`s with a type, a name and an
    optional value.
  - The CPU query and the GPU query each run in their own try block, after
    their own `Update()`. Each query takes its own `Fault`: it may not throw,
    throw before the scan, or throw while a given sensor is examined. The
    model does not say which exception is raised, only where.
  - CPU temperature comes from the *first* matching sensor of the first CPU
    device, and the scan stops there.
  - GPU temperature and usage come from the *last* matching sensors of the
    first NVIDIA device. Both readings start at 0 outside the try block, so
    values read before a fault are kept.
  - Both scans are loop methods (`GetCpuTemperature`, `GetGpuInfo`). Each is
    proved against a selection function, and the lemmas state the
    first-match and last-match rules about those functions.
- **Derivations** (`Metrics`).
  - Bytes/s to MB/s.
  - The rule that a temperature is shown only when it is above 0.
  - The memory-used percentage, computed with the source's unsigned 64-bit
    wrap-around. The wrapped case is exposed: it yields more than 100.
  - The refresh interval in milliseconds.
  - The total-memory sentinel.
- **Form state** (`Monitor.PerformanceMonitor`). This is a class with the
  fields `totalMemory`, `refreshSeconds` and `timerIntervalMs`. Its
  invariant keeps the total at 1 or more and the refresh rate within
  [1, 60] s, with the timer interval equal to that rate times 1000 with the fraction cut off.
  `UpdatePerformanceData` builds one `Snapshot` of everything a tick shows.

Sensor names are matched by ordinal substring search (`Contains`). It is
proved equal to "occurs at some position".

The two selection rules differ. The CPU scan stops at its first match, while
the GPU scan runs to the end and keeps the last match of each type. The model
follows the code, and `FirstVersusLast` shows the two rules disagreeing on the
same pair of sensors.

## Model

| member | source | states |
|---|---|---|
| Sensors.ValueOrZero | Form1.cs:286 | a null sensor value reads as 0, a present one as itself |
| Sensors.ContainsIffOccurs | Form1.cs:283-284 | the substring test holds exactly when the pattern occurs at some position of the name |
| Sensors.FirstOfKind | Form1.cs:277 | returns the index of the first device of the requested kind, all earlier devices being of other kinds; none exactly when no device has that kind |
| Sensors.FirstOfKindPrefix | Form1.cs:306 | devices listed after the first device of a kind never change which device is chosen |
| Sensors.ScanLimit | Form1.cs:291-295 | the scan examines every sensor when nothing throws, none when the query throws before the scan, and only the sensors before the faulting one when it throws mid-scan |
| CpuSensor.FirstCpuTemperatureSensor | Form1.cs:281-288 | index of the first temperature sensor whose name contains "Package" or "Core #1"; no earlier sensor matches; none exactly when no sensor matches |
| CpuSensor.GetCpuTemperature | Form1.cs:273-296 | the loop with early return yields exactly the CPU temperature the selection rule defines, 0 on every failure path |
| CpuSensor.CpuSelectIsFirstMatch | Form1.cs:283-287 | the result is the value of the first matching sensor, whatever follows it |
| CpuSensor.CpuSelectNoMatch | Form1.cs:295 | with no matching sensor the result is 0 |
| CpuSensor.CpuNullFirstMatchStops | Form1.cs:286 | a first match with a null value gives 0 even when a later matching sensor has a value |
| CpuSensor.CpuLaterSensorsIgnored | Form1.cs:281-288 | once a match exists, appending any sensors leaves the result unchanged |
| CpuSensor.CpuTemperatureZeroCases | Form1.cs:277-295 | 0 when the query throws before the scan, when there is no CPU device, when the first CPU device has no matching sensor, and when the query throws at sensor k before any matching sensor |
| CpuSensor.CpuOnlyFirstDeviceConsulted | Form1.cs:277-278 | devices after the first CPU device, including other CPU devices, never affect the temperature |
| CpuSensor.CpuTemperatureIsFirstMatch | Form1.cs:277-287 | when the query does not throw before reaching it, the temperature is the value of the first matching sensor of the first CPU device |
| GpuSensor.LastGpuCoreSensor | Form1.cs:310-320 | index of the last sensor of the given type whose name contains "GPU Core"; no later sensor matches; none exactly when no sensor matches |
| GpuSensor.GpuStep | Form1.cs:312-319 | one sensor updates at most one of temperature and usage; a sensor whose type is neither temperature nor load changes nothing, whatever its name |
| GpuSensor.GpuSelectAppend | Form1.cs:310-320 | scanning one more sensor changes the readings exactly as one loop iteration does |
| GpuSensor.GetGpuInfo | Form1.cs:299-329 | the overwriting loop yields exactly the last-match readings of the sensors scanned before any fault, 0 and 0 when the provider throws first or there is no NVIDIA device |
| GpuSensor.GpuTemperatureIsLastMatch | Form1.cs:312-315 | the temperature is the value of the last "GPU Core" temperature sensor |
| GpuSensor.GpuUsageIsLastMatch | Form1.cs:316-319 | the usage is the value of the last "GPU Core" load sensor |
| GpuSensor.GpuNoMatchIsZero | Form1.cs:301-302 | each reading is 0 when no sensor of its type matches |
| GpuSensor.GpuReadingsFromDistinctSensors | Form1.cs:312-319 | the sensor that sets the temperature is never the sensor that sets the usage |
| GpuSensor.GpuLaterMatchOverrides | Form1.cs:310-320 | a match in later sensors overrides every earlier reading of that type |
| GpuSensor.GpuInfoZeroCases | Form1.cs:301-328 | both readings are 0 when the provider throws before the scan or there is no NVIDIA device |
| GpuSensor.GpuInfoIsLastMatch | Form1.cs:306-320 | without a fault, the readings are the values of the last matching temperature and load sensors of the first NVIDIA device |
| GpuSensor.FirstVersusLast | Form1.cs:281-319 | on two sensors that match both rules, the CPU temperature comes from the first and the GPU temperature from the second |
| Metrics.BytesToMegabytes | Form1.cs:247-248 | the MB/s rate times 1048576 is the bytes/s rate; a non-negative rate stays non-negative and no larger |
| Metrics.ShowTemperature | Form1.cs:257-262 | a temperature is shown exactly when it is above 0, and then as itself; otherwise "Not available" |
| Metrics.TotalMemoryAsWritten | Form1.cs:220-238 | the first row's total is stored; a thrown exception stores 1; an empty answer leaves the previous value |
| Metrics.EmptyQueryLeavesZeroTotal | Form1.cs:228-232 | starting from 0, an answer with no row, or with a zero total, leaves the total at 0 |
| Metrics.ResolveTotalMemory | Form1.cs:234-237 | the stored total is at least 1 and equals the total the code reads whenever that is usable |
| Metrics.MemoryUsedPercent | Form1.cs:267 | non-negative; within [0, 100] and equal to used over total times 100 when no more memory is available than installed; above 100 when the unsigned subtraction wraps |
| Metrics.MemoryScenario | Form1.cs:267 | 2048 MB available out of 8192 MB is 75 percent used |
| Metrics.TruncateToInt | Form1.cs:353 | the cast keeps the integer part: for a non-negative value the result is at most the value and within 1 of it, and symmetrically for a negative one |
| Metrics.IntervalMs | Form1.cs:212 | the interval is the rate in milliseconds with the fraction cut off; a whole-second rate gives exactly rate times 1000; a rate in [1, 60] gives [1000, 60000] |
| Monitor.PerformanceMonitor.Load | Form1.cs:193-214 | after loading, the total memory is at least 1 and the timer runs at the initial rate of 1 s, i.e. 1000 ms |
| Monitor.PerformanceMonitor.GetTotalMemory | Form1.cs:220-238 | the field becomes the resolved total, which is never 0 |
| Monitor.PerformanceMonitor.SetRefreshRate | Form1.cs:351-354 | a rate in [1, 60], fractional or not, is accepted and sets the timer interval to the rate times 1000 with the fraction cut off, within [1000, 60000]; any other rate is refused and changes nothing; the total memory never changes |
| Monitor.PerformanceMonitor.UpdatePerformanceData | Form1.cs:242-270 | each snapshot field is derived from its own source alone, the CPU and GPU queries each under their own fault; the memory percentage divides by a total of at least 1 and lies in [0, 100] when no more memory is available than installed |
| Monitor.ProviderFailureShowsNotAvailable | Form1.cs:257-262 | a query that throws before reading any sensor shows its temperature as "Not available" (and GPU usage 0), whatever the other query does |
| Monitor.GpuShownWhileCpuQueryFails | Form1.cs:304-326 | a GPU reporting 70 degrees is shown while the CPU query on the same computer throws |

## Findings

| source | as written | input that shows it | evidently intended | confidence | as-written member | corrected member |
|---|---|---|---|---|---|---|
| Form1.cs:228-237 | the total memory is set only inside the result loop or in the catch block, and a zero total is stored unchanged | the WMI query returns no row, or a row whose total physical memory is 0: the field stays 0. The float division at line 267 (`ulong / (float)totalMemory`) then yields infinity or NaN rather than throwing, and the `(int)` of that is out of range for `ramProgressBar.Value` | the total is never 0, as the sentinel's own comment says | medium, not executed | Metrics.EmptyQueryLeavesZeroTotal | Metrics.ResolveTotalMemory |

The class uses the corrected total. Its invariant `totalMemory >= 1` is what
makes `MemoryUsedPercent`'s precondition hold on every tick.

## Left out

- The form's layout, fonts, colours, progress-bar placement and the always-on-top toggle (Form1.cs:62-191, 332-335): pure user interface.
- Construction of the performance counters and their `NextValue` reads (Form1.cs:53-56, 245-248). They are inputs here (`CounterReadings`).
- The WMI query (Form1.cs:224-231). Its answer is an input (`MemoryQuery`). A failed conversion of the value counts as a thrown query.
- The hardware-monitoring provider's `Open`, `Update` and `Close` (Form1.cs:197-209, 280, 309, 341). A `Computer` value stands for the devices after `Update`. A failure to open the provider at load is not modelled.
- The timer's event plumbing (Form1.cs:211-216, 345-348). Only the interval value is modelled. The timer's scheduling is not modelled, including what a change of interval does to a pending tick.
- IEEE float rounding, the `(int)` casts and the label format strings (Form1.cs:253-269). Values are exact reals.
- Progress bars. A `ProgressBar` refuses values outside [0, 100], so the wrapped memory percentage or a GPU temperature above 100 °C would throw at Form1.cs:267-268. The model stops at the value handed to the bar.
- `MessageBox.Show` and `Debug.WriteLine` in the catch blocks: I/O.
- Metrics.MemoryUsedPercent: the available memory is a whole number of megabytes. The source reads a float and truncates it with the `(ulong)` cast.
- Metrics.IntervalMs: an `(int)` cast of a value beyond the range of `int` throws an overflow exception; this is not modelled, since rates in [1, 60] never reach it. The decimal's finite precision is not modelled either: rates are exact reals.
- Monitor.PerformanceMonitor.SetRefreshRate: a rate typed into the control is clamped by the control before the handler runs. Only the refusal of an out-of-range value, which keeps the previous value, is modelled.
