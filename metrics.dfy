/**
 * The numeric derivations of one update: disk rates in MB/s, the
 * "shown only when positive" temperature rule, the total-memory sentinel and
 * the memory-used percentage with the source's unsigned 64-bit arithmetic.
 */
module Metrics {

  const TWO_TO_64: int := 0x1_0000_0000_0000_0000
  const BYTES_PER_MB: int := 1024 * 1024

  /** C#'s `ulong`. */
  type U64 = x: int | 0 <= x < TWO_TO_64

  /** `counter / 1024 / 1024`: bytes per second to megabytes per second. */
  function BytesToMegabytes(bytesPerSec: real): (mbPerSec: real)
    ensures mbPerSec * 1048576.0 == bytesPerSec
    ensures 0.0 <= bytesPerSec ==> 0.0 <= mbPerSec <= bytesPerSec
  {
    bytesPerSec / 1024.0 / 1024.0
  }

  datatype TemperatureDisplay = Celsius(degrees: real) | NotAvailable

  /** A temperature label shows the reading when it is above 0, "Not available" otherwise. */
  function ShowTemperature(t: real): (d: TemperatureDisplay)
    ensures d.Celsius? <==> t > 0.0
    ensures d.Celsius? ==> d.degrees == t
  {
    if t > 0.0 then Celsius(t) else NotAvailable
  }

  /** The answer of the WMI query for `TotalPhysicalMemory`. */
  datatype MemoryQuery =
    | QueryFailed
      /** One converted `TotalPhysicalMemory` value per result row. */
    | QueryRows(totals: seq<U64>)

  /**
   * `GetTotalMemory` as written: the first row wins, a thrown exception gives
   * the sentinel 1, and no row at all leaves the field at its previous value.
   */
  function TotalMemoryAsWritten(q: MemoryQuery, previous: U64): (total: U64)
    ensures q.QueryFailed? ==> total == 1
    ensures q.QueryRows? && |q.totals| > 0 ==> total == q.totals[0]
    ensures q.QueryRows? && |q.totals| == 0 ==> total == previous
  {
    match q
    case QueryFailed => 1
    case QueryRows(rows) => if |rows| > 0 then rows[0] else previous
  }

  /** At start-up the field is 0, and an empty answer leaves it there. */
  lemma EmptyQueryLeavesZeroTotal()
    ensures TotalMemoryAsWritten(QueryRows([]), 0) == 0
    ensures TotalMemoryAsWritten(QueryRows([0]), 0) == 0
  {
  }

  /**
   * `GetTotalMemory` with the sentinel applied to every path that would
   * otherwise leave the total at 0; any usable total is kept as read.
   */
  function ResolveTotalMemory(q: MemoryQuery, previous: U64): (total: U64)
    ensures total >= 1
    ensures TotalMemoryAsWritten(q, previous) >= 1 ==> total == TotalMemoryAsWritten(q, previous)
    ensures TotalMemoryAsWritten(q, previous) == 0 ==> total == 1
  {
    var t := TotalMemoryAsWritten(q, previous);
    if t == 0 then 1 else t
  }

  /** `(ulong)availableMB * 1024 * 1024`, wrapping at 2^64. */
  function AvailableBytes(availableMB: U64): U64 {
    (availableMB * BYTES_PER_MB) % TWO_TO_64
  }

  /** `totalMemory - availableBytes` in `ulong`: wraps when more is available than installed. */
  function UsedBytes(total: U64, availableMB: U64): U64 {
    (total - AvailableBytes(availableMB)) % TWO_TO_64
  }

  /**
   * The memory-used percentage drawn on the progress bar, before the `(int)`
   * cast. When no more memory is available than installed it lies in
   * [0, 100]; otherwise the unsigned subtraction wraps and it exceeds 100.
   */
  function MemoryUsedPercent(total: U64, availableMB: U64): (p: real)
    requires total >= 1
    ensures p >= 0.0
    ensures availableMB * BYTES_PER_MB <= total ==>
              p <= 100.0 && p * (total as real) == ((total - availableMB * BYTES_PER_MB) as real) * 100.0
    ensures total < availableMB * BYTES_PER_MB < TWO_TO_64 ==> p > 100.0
  {
    var used := UsedBytes(total, availableMB);
    assert availableMB * BYTES_PER_MB <= total ==> used == total - availableMB * BYTES_PER_MB;
    assert total < availableMB * BYTES_PER_MB < TWO_TO_64 ==> used > total;
    RatioBounds(used as real, total as real);
    used as real / total as real * 100.0
  }

  /** How a ratio of non-negative reals compares with 1. */
  lemma RatioBounds(used: real, total: real)
    requires used >= 0.0 && total > 0.0
    ensures used / total * total == used
    ensures used / total >= 0.0
    ensures used <= total ==> used / total <= 1.0
    ensures used > total ==> used / total > 1.0
  {
  }

  /** 2048 MB available of 8192 MB installed is 75 percent used. */
  lemma MemoryScenario()
    ensures MemoryUsedPercent(8192 * BYTES_PER_MB, 2048) == 75.0
  {
  }

  /** C#'s `(int)` cast of a decimal: truncation toward zero. */
  function TruncateToInt(x: real): (n: int)
    ensures 0.0 <= x ==> n as real <= x < n as real + 1.0
    ensures x < 0.0 ==> n as real - 1.0 < x <= n as real
  {
    if x >= 0.0 then x.Floor else -((-x).Floor)
  }

  /**
   * `(int)(refreshRateControl.Value * 1000)`: the timer interval for a
   * refresh rate in (possibly fractional) seconds.
   */
  function IntervalMs(seconds: real): (ms: int)
    ensures 0.0 <= seconds ==> ms as real <= seconds * 1000.0 < ms as real + 1.0
    ensures seconds == seconds.Floor as real ==> ms == seconds.Floor * 1000
    ensures 1.0 <= seconds <= 60.0 ==> 1000 <= ms <= 60000
  {
    TruncateToInt(seconds * 1000.0)
  }
}
