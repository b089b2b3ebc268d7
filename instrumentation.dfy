/** The benchmark's instruments (benchmark/frame-meter.ts): the frame meter,
    the memory profiler and the stdout meter. Clocks and `process.memoryUsage()`
    are inputs: a frame or write duration and a memory reading are passed in. */
module Instrumentation {
  import opened Stats

  // ---------------------------------------------------------------------
  // FrameMeter

  /** `Math.round(1000 / avg)`: JavaScript gives Infinity when the mean is 0. */
  datatype Rate = Finite(fps: real) | PositiveInfinity

  datatype FrameMetrics = FrameMetrics(
    avgFrameTimeMs: real,
    minFrameTimeMs: real,
    maxFrameTimeMs: real,
    p95FrameTimeMs: real,
    p99FrameTimeMs: real,
    throughputFps: Rate,
    droppedFrames: nat,
    totalFrames: nat,
    backpressureEvents: nat,
    rawFrameTimes: seq<real>)

  /** What `getMetrics` reports for the given meter state. */
  function FrameMetricsOf(times: seq<real>, dropped: nat, total: nat, backpressure: nat): (m: FrameMetrics)
    ensures m.droppedFrames == dropped && m.totalFrames == total && m.backpressureEvents == backpressure
    ensures |times| == 0 ==>
      m.avgFrameTimeMs == 0.0 && m.minFrameTimeMs == 0.0 && m.maxFrameTimeMs == 0.0 &&
      m.p95FrameTimeMs == 0.0 && m.p99FrameTimeMs == 0.0 && m.throughputFps == Finite(0.0) &&
      m.rawFrameTimes == []
    ensures |times| > 0 ==> m.rawFrameTimes == times && m.avgFrameTimeMs == Round2(Avg(times))
  {
    if |times| == 0 then
      FrameMetrics(0.0, 0.0, 0.0, 0.0, 0.0, Finite(0.0), dropped, total, backpressure, [])
    else
      var avg := Sum(times) / (|times| as real);
      FrameMetrics(
        Round2(avg),
        Round2(Min(times)),
        Round2(Max(times)),
        Round2(Percentile(times, 95.0)),
        Round2(Percentile(times, 99.0)),
        if avg == 0.0 then PositiveInfinity else Finite(MathRound(1000.0 / avg)),
        dropped, total, backpressure,
        times)
  }

  /** The rounded timing fields keep the order of the unrounded statistics. */
  lemma FrameMetricsOrdered(times: seq<real>, dropped: nat, total: nat, backpressure: nat)
    requires |times| > 0
    ensures var m := FrameMetricsOf(times, dropped, total, backpressure);
      m.minFrameTimeMs <= m.avgFrameTimeMs <= m.maxFrameTimeMs &&
      m.minFrameTimeMs <= m.p95FrameTimeMs <= m.p99FrameTimeMs <= m.maxFrameTimeMs
  {
    AvgBetweenMinMax(times);
    Round2Monotone(Min(times), Avg(times));
    Round2Monotone(Avg(times), Max(times));
    PercentileBetweenMinMax(times, 95.0);
    PercentileBetweenMinMax(times, 99.0);
    PercentileMonotone(times, 95.0, 99.0);
    Round2Monotone(Min(times), Percentile(times, 95.0));
    Round2Monotone(Percentile(times, 95.0), Percentile(times, 99.0));
    Round2Monotone(Percentile(times, 99.0), Max(times));
  }

  /** Frames that all took the same positive time report that time throughout. */
  lemma FrameMetricsOfSteadyFrames(times: seq<real>, t: real)
    requires |times| > 0 && t > 0.0
    requires forall i :: 0 <= i < |times| ==> times[i] == t
    ensures var m := FrameMetricsOf(times, 0, |times|, 0);
      m.avgFrameTimeMs == Round2(t) && m.minFrameTimeMs == Round2(t) &&
      m.maxFrameTimeMs == Round2(t) && m.p99FrameTimeMs == Round2(t) &&
      m.throughputFps == Finite(MathRound(1000.0 / t))
  {
    SumConstant(times, t);
    assert Sum(times) / (|times| as real) == t;
    AvgBetweenMinMax(times);
    PercentileIsElement(times, 99.0);
  }

  class FrameMeter {
    var frameTimes: seq<real>
    var droppedFrames: nat
    var backpressureEvents: nat
    var pendingFrame: bool
    var totalFrames: nat

    /** Every counted frame has its time recorded, except the one in flight. */
    ghost predicate Valid()
      reads this
    {
      totalFrames == |frameTimes| + (if pendingFrame then 1 else 0)
    }

    constructor ()
      ensures Valid()
      ensures frameTimes == [] && droppedFrames == 0 && backpressureEvents == 0
      ensures !pendingFrame && totalFrames == 0
    {
      frameTimes := [];
      droppedFrames := 0;
      backpressureEvents := 0;
      pendingFrame := false;
      totalFrames := 0;
    }

    /** `recordFrame` up to its `await`: a call while a frame is pending only
        counts a drop; otherwise the frame is started and a `false` from the
        write function counts as backpressure. */
    method BeginFrame(flushed: bool) returns (started: bool)
      requires Valid()
      modifies this
      ensures Valid()
      ensures started == !old(pendingFrame)
      ensures pendingFrame
      ensures !started ==>
        droppedFrames == old(droppedFrames) + 1 && totalFrames == old(totalFrames) &&
        frameTimes == old(frameTimes) && backpressureEvents == old(backpressureEvents)
      ensures started ==>
        droppedFrames == old(droppedFrames) && totalFrames == old(totalFrames) + 1 &&
        frameTimes == old(frameTimes) &&
        backpressureEvents == old(backpressureEvents) + (if flushed then 0 else 1)
    {
      if pendingFrame {
        droppedFrames := droppedFrames + 1;
        return false;
      }
      pendingFrame := true;
      totalFrames := totalFrames + 1;
      if !flushed {
        backpressureEvents := backpressureEvents + 1;
      }
      return true;
    }

    /** `recordFrame` after its `await`: the measured time is recorded and the
        frame is no longer pending. */
    method EndFrame(frameTimeMs: real)
      modifies this
      ensures old(Valid() && pendingFrame) ==> Valid()
      ensures frameTimes == old(frameTimes) + [frameTimeMs] && !pendingFrame
      ensures droppedFrames == old(droppedFrames) && totalFrames == old(totalFrames)
      ensures backpressureEvents == old(backpressureEvents)
    {
      frameTimes := frameTimes + [frameTimeMs];
      pendingFrame := false;
    }

    /** `recordFrame` when nothing runs in between its two halves. */
    method RecordFrame(flushed: bool, frameTimeMs: real)
      requires Valid()
      modifies this
      ensures Valid()
      ensures old(pendingFrame) ==>
        pendingFrame && droppedFrames == old(droppedFrames) + 1 &&
        totalFrames == old(totalFrames) && frameTimes == old(frameTimes) &&
        backpressureEvents == old(backpressureEvents)
      ensures !old(pendingFrame) ==>
        !pendingFrame && droppedFrames == old(droppedFrames) &&
        totalFrames == old(totalFrames) + 1 && frameTimes == old(frameTimes) + [frameTimeMs] &&
        backpressureEvents == old(backpressureEvents) + (if flushed then 0 else 1)
    {
      var started := BeginFrame(flushed);
      if started {
        EndFrame(frameTimeMs);
      }
    }

    method RecordFrameSync(frameTimeMs: real)
      requires Valid()
      modifies this
      ensures Valid()
      ensures totalFrames == old(totalFrames) + 1 && frameTimes == old(frameTimes) + [frameTimeMs]
      ensures droppedFrames == old(droppedFrames) && backpressureEvents == old(backpressureEvents)
      ensures pendingFrame == old(pendingFrame)
    {
      totalFrames := totalFrames + 1;
      frameTimes := frameTimes + [frameTimeMs];
    }

    method RecordDroppedFrame()
      requires Valid()
      modifies this
      ensures Valid()
      ensures droppedFrames == old(droppedFrames) + 1
      ensures frameTimes == old(frameTimes) && totalFrames == old(totalFrames)
      ensures backpressureEvents == old(backpressureEvents) && pendingFrame == old(pendingFrame)
    {
      droppedFrames := droppedFrames + 1;
    }

    method RecordBackpressure()
      requires Valid()
      modifies this
      ensures Valid()
      ensures backpressureEvents == old(backpressureEvents) + 1
      ensures frameTimes == old(frameTimes) && totalFrames == old(totalFrames)
      ensures droppedFrames == old(droppedFrames) && pendingFrame == old(pendingFrame)
    {
      backpressureEvents := backpressureEvents + 1;
    }

    method GetMetrics() returns (m: FrameMetrics)
      ensures m == FrameMetricsOf(frameTimes, droppedFrames, totalFrames, backpressureEvents)
    {
      m := FrameMetricsOf(frameTimes, droppedFrames, totalFrames, backpressureEvents);
    }

    method Reset()
      modifies this
      ensures Valid()
      ensures frameTimes == [] && droppedFrames == 0 && backpressureEvents == 0
      ensures !pendingFrame && totalFrames == 0
    {
      frameTimes := [];
      droppedFrames := 0;
      backpressureEvents := 0;
      pendingFrame := false;
      totalFrames := 0;
    }
  }

  // ---------------------------------------------------------------------
  // MemoryProfiler

  /** The fields of `process.memoryUsage()` the profiler reads, in bytes. */
  datatype MemoryUsage = MemoryUsage(heapUsed: real, heapTotal: real, external: real, rss: real)

  datatype MemorySample = MemorySample(heapUsed: real, rss: real)

  datatype MemoryMetrics = MemoryMetrics(
    heapUsedMB: real,
    heapTotalMB: real,
    externalMB: real,
    rssMB: real,
    peakHeapUsedMB: real,
    peakRssMB: real)

  function RealMax(a: real, b: real): (r: real)
    ensures r >= a && r >= b && (r == a || r == b)
  {
    if a >= b then a else b
  }

  /** The running `Math.max` of the profiler, starting from 0. */
  function Peak(xs: seq<real>): real {
    if xs == [] then 0.0 else RealMax(Peak(xs[..|xs| - 1]), xs[|xs| - 1])
  }

  /** The peak bounds every reading, is never negative, and is a reading
      unless it is the initial 0. */
  lemma {:induction false} PeakBounds(xs: seq<real>)
    ensures Peak(xs) >= 0.0
    ensures forall i :: 0 <= i < |xs| ==> xs[i] <= Peak(xs)
    ensures Peak(xs) == 0.0 || Peak(xs) in xs
  {
    if xs != [] {
      var init := xs[..|xs| - 1];
      PeakBounds(init);
      assert forall i :: 0 <= i < |xs| - 1 ==> xs[i] == init[i];
    }
  }

  /** More readings never lower the peak. */
  lemma {:induction false} PeakGrows(xs: seq<real>, ys: seq<real>)
    ensures Peak(xs) <= Peak(xs + ys)
  {
    if ys != [] {
      var init := ys[..|ys| - 1];
      assert (xs + ys)[..|xs + ys| - 1] == xs + init;
      PeakGrows(xs, init);
    } else {
      assert xs + ys == xs;
    }
  }

  function HeapReadings(samples: seq<MemorySample>): (r: seq<real>)
    ensures |r| == |samples| && forall i :: 0 <= i < |r| ==> r[i] == samples[i].heapUsed
  {
    seq(|samples|, i requires 0 <= i < |samples| => samples[i].heapUsed)
  }

  function RssReadings(samples: seq<MemorySample>): (r: seq<real>)
    ensures |r| == |samples| && forall i :: 0 <= i < |r| ==> r[i] == samples[i].rss
  {
    seq(|samples|, i requires 0 <= i < |samples| => samples[i].rss)
  }

  /** `toMB`: bytes to mebibytes, rounded to one decimal. */
  function ToMB(bytes: real): real {
    MathRound(bytes / (1024.0 * 1024.0) * 10.0) / 10.0
  }

  lemma ToMBMonotone(x: real, y: real)
    requires x <= y
    ensures ToMB(x) <= ToMB(y)
  {
    MathRoundMonotone(x / (1024.0 * 1024.0) * 10.0, y / (1024.0 * 1024.0) * 10.0);
  }

  function MemoryMetricsOf(now: MemoryUsage, peakHeapUsed: real, peakRss: real): (m: MemoryMetrics)
    ensures m.heapUsedMB == ToMB(now.heapUsed) && m.rssMB == ToMB(now.rss)
    ensures m.peakHeapUsedMB == ToMB(peakHeapUsed) && m.peakRssMB == ToMB(peakRss)
  {
    MemoryMetrics(ToMB(now.heapUsed), ToMB(now.heapTotal), ToMB(now.external), ToMB(now.rss),
                  ToMB(peakHeapUsed), ToMB(peakRss))
  }

  /** The reported peaks are at least the reported value of every sample taken. */
  lemma PeakMetricsBoundSamples(samples: seq<MemorySample>, now: MemoryUsage, i: nat)
    requires i < |samples|
    ensures var m := MemoryMetricsOf(now, Peak(HeapReadings(samples)), Peak(RssReadings(samples)));
      ToMB(samples[i].heapUsed) <= m.peakHeapUsedMB && ToMB(samples[i].rss) <= m.peakRssMB
  {
    PeakBounds(HeapReadings(samples));
    PeakBounds(RssReadings(samples));
    ToMBMonotone(samples[i].heapUsed, Peak(HeapReadings(samples)));
    ToMBMonotone(samples[i].rss, Peak(RssReadings(samples)));
  }

  class MemoryProfiler {
    var samples: seq<MemorySample>
    /** `intervalId !== null` */
    var intervalActive: bool
    var peakHeapUsed: real
    var peakRss: real

    /** The peaks are the running maxima of the samples taken since the last reset. */
    ghost predicate Valid()
      reads this
    {
      peakHeapUsed == Peak(HeapReadings(samples)) && peakRss == Peak(RssReadings(samples))
    }

    constructor ()
      ensures Valid() && samples == [] && !intervalActive
      ensures peakHeapUsed == 0.0 && peakRss == 0.0
    {
      samples := [];
      intervalActive := false;
      peakHeapUsed := 0.0;
      peakRss := 0.0;
    }

    /** `sample`, given the reading `process.memoryUsage()` returned. */
    method Sample(mem: MemoryUsage)
      requires Valid()
      modifies this
      ensures Valid()
      ensures samples == old(samples) + [MemorySample(mem.heapUsed, mem.rss)]
      ensures peakHeapUsed == RealMax(old(peakHeapUsed), mem.heapUsed)
      ensures peakRss == RealMax(old(peakRss), mem.rss)
      ensures peakHeapUsed >= old(peakHeapUsed) && peakRss >= old(peakRss)
      ensures intervalActive == old(intervalActive)
    {
      samples := samples + [MemorySample(mem.heapUsed, mem.rss)];
      assert HeapReadings(samples)[..|samples| - 1] == HeapReadings(old(samples));
      assert RssReadings(samples)[..|samples| - 1] == RssReadings(old(samples));
      peakHeapUsed := RealMax(peakHeapUsed, mem.heapUsed);
      peakRss := RealMax(peakRss, mem.rss);
    }

    /** `start`: one immediate sample, then the periodic timer is armed. */
    method Start(mem: MemoryUsage)
      requires Valid()
      modifies this
      ensures Valid() && intervalActive
      ensures samples == old(samples) + [MemorySample(mem.heapUsed, mem.rss)]
      ensures peakHeapUsed == RealMax(old(peakHeapUsed), mem.heapUsed)
      ensures peakRss == RealMax(old(peakRss), mem.rss)
    {
      Sample(mem);
      intervalActive := true;
    }

    method Stop()
      modifies this
      ensures !intervalActive
      ensures samples == old(samples) && peakHeapUsed == old(peakHeapUsed) && peakRss == old(peakRss)
      ensures !old(intervalActive) ==> unchanged(this)
    {
      if intervalActive {
        intervalActive := false;
      }
    }

    /** `getMetrics`, given the current reading of `process.memoryUsage()`. */
    method GetMetrics(now: MemoryUsage) returns (m: MemoryMetrics)
      ensures m == MemoryMetricsOf(now, peakHeapUsed, peakRss)
    {
      m := MemoryMetricsOf(now, peakHeapUsed, peakRss);
    }

    /** Clears the samples and the peaks; the timer is left as it is. */
    method Reset()
      modifies this
      ensures Valid() && samples == [] && peakHeapUsed == 0.0 && peakRss == 0.0
      ensures intervalActive == old(intervalActive)
    {
      samples := [];
      peakHeapUsed := 0.0;
      peakRss := 0.0;
    }
  }

  // ---------------------------------------------------------------------
  // StdoutMeter

  /** The value of `process.stdout.write`: the stream's own writer, a
      `.bind` copy of a writer (a new function that calls it), or the
      metering wrapper around a writer. */
  datatype Writer = Native(id: nat) | Bound(inner: Writer) | Metered(inner: Writer)

  /** A bound copy is a different function from the one it calls. */
  lemma {:induction false} BoundIsNew(w: Writer)
    ensures Bound(w) != w
  {
    match w
    case Bound(inner) => BoundIsNew(inner);
    case _ =>
  }

  class ProcessStdout {
    var write: Writer

    constructor (w: Writer)
      ensures write == w
    {
      write := w;
    }
  }

  /** A chunk handed to `write`: a string, or a byte buffer. */
  datatype Chunk = Text(text: string) | Bytes(bytes: seq<bv8>)

  /** Bytes of one code point in UTF-8. */
  function Utf8Width(c: char): (w: nat)
    ensures 1 <= w <= 4
    ensures w == 1 <==> (c as int) < 0x80
  {
    if (c as int) < 0x80 then 1
    else if (c as int) < 0x800 then 2
    else if (c as int) < 0x1_0000 then 3
    else 4
  }

  /** `Buffer.byteLength(s)`: the UTF-8 encoded length. */
  function Utf8Length(s: string): nat {
    if s == [] then 0 else Utf8Width(s[0]) + Utf8Length(s[1..])
  }

  /** Between one and four bytes per code point, and exactly one per ASCII character. */
  lemma {:induction false} Utf8LengthBounds(s: string)
    ensures |s| <= Utf8Length(s) <= 4 * |s|
    ensures Utf8Length(s) == |s| <==> forall i :: 0 <= i < |s| ==> (s[i] as int) < 0x80
  {
    if s != [] {
      Utf8LengthBounds(s[1..]);
      assert forall i :: 1 <= i < |s| ==> s[i] == s[1..][i - 1];
    }
  }

  lemma {:induction false} Utf8LengthAppend(s: string, t: string)
    ensures Utf8Length(s + t) == Utf8Length(s) + Utf8Length(t)
  {
    if s != [] {
      assert (s + t)[0] == s[0] && (s + t)[1..] == s[1..] + t;
      Utf8LengthAppend(s[1..], t);
    } else {
      assert s + t == t;
    }
  }

  function ByteLength(chunk: Chunk): nat {
    match chunk
    case Text(s) => Utf8Length(s)
    case Bytes(b) => |b|
  }

  datatype StdoutMetrics = StdoutMetrics(
    totalWrites: nat,
    totalBytes: nat,
    avgWriteTimeMs: real,
    maxWriteTimeMs: real,
    p95WriteTimeMs: real,
    p99WriteTimeMs: real,
    backpressureEvents: nat)

  /** `Math.round(x * 1000) / 1000` */
  function Round3(x: real): real {
    MathRound(x * 1000.0) / 1000.0
  }

  lemma Round3Monotone(x: real, y: real)
    requires x <= y
    ensures Round3(x) <= Round3(y)
  {
    MathRoundMonotone(x * 1000.0, y * 1000.0);
  }

  function StdoutMetricsOf(times: seq<real>, writes: nat, bytes: nat, backpressure: nat): (m: StdoutMetrics)
    ensures m.totalWrites == writes && m.totalBytes == bytes && m.backpressureEvents == backpressure
    ensures |times| == 0 ==>
      m.avgWriteTimeMs == 0.0 && m.maxWriteTimeMs == 0.0 &&
      m.p95WriteTimeMs == 0.0 && m.p99WriteTimeMs == 0.0
  {
    StdoutMetrics(
      writes,
      bytes,
      Round3(Avg(times)),
      if |times| > 0 then Round3(Max(times)) else 0.0,
      Round3(Percentile(times, 95.0)),
      Round3(Percentile(times, 99.0)),
      backpressure)
  }

  /** For a non-empty log, avg and both percentiles never exceed the maximum. */
  lemma StdoutMetricsOrdered(times: seq<real>, writes: nat, bytes: nat, backpressure: nat)
    requires |times| > 0
    ensures var m := StdoutMetricsOf(times, writes, bytes, backpressure);
      m.avgWriteTimeMs <= m.maxWriteTimeMs &&
      m.p95WriteTimeMs <= m.p99WriteTimeMs <= m.maxWriteTimeMs
  {
    AvgBetweenMinMax(times);
    Round3Monotone(Avg(times), Max(times));
    PercentileBetweenMinMax(times, 99.0);
    PercentileMonotone(times, 95.0, 99.0);
    Round3Monotone(Percentile(times, 95.0), Percentile(times, 99.0));
    Round3Monotone(Percentile(times, 99.0), Max(times));
  }

  class StdoutMeter {
    const stdout: ProcessStdout
    /** The writer installed when the meter was built. */
    ghost const before: Writer
    const originalWrite: Writer
    var writeTimes: seq<real>
    var totalBytes: nat
    var totalWrites: nat
    var backpressureEvents: nat
    var isHooked: bool

    /** The captured writer is a bound copy of the one found at construction;
        the wrapper around it is installed exactly while hooked, and while
        unhooked the stream holds either the writer found at construction
        (never started) or the bound copy (stopped); every write is timed. */
    ghost predicate Valid()
      reads this, stdout
    {
      originalWrite == Bound(before) &&
      (isHooked ==> stdout.write == Metered(originalWrite)) &&
      (!isHooked ==> stdout.write == before || stdout.write == originalWrite) &&
      totalWrites == |writeTimes|
    }

    /** Captures a bound copy of the writer currently installed on the
        stream, leaving the stream as it is. */
    constructor (out: ProcessStdout)
      ensures Valid()
      ensures stdout == out && before == out.write && originalWrite == Bound(out.write) && !isHooked
      ensures out.write == before
      ensures writeTimes == [] && totalBytes == 0 && totalWrites == 0 && backpressureEvents == 0
    {
      stdout := out;
      before := out.write;
      originalWrite := Bound(out.write);
      writeTimes := [];
      totalBytes := 0;
      totalWrites := 0;
      backpressureEvents := 0;
      isHooked := false;
    }

    /** Installs the metering wrapper; a second call while hooked does nothing. */
    method Start()
      requires Valid()
      modifies this, stdout
      ensures Valid() && isHooked
      ensures stdout.write == Metered(originalWrite)
      ensures old(isHooked) ==> unchanged(this, stdout)
      ensures writeTimes == old(writeTimes) && totalBytes == old(totalBytes)
      ensures totalWrites == old(totalWrites) && backpressureEvents == old(backpressureEvents)
    {
      if isHooked {
        return;
      }
      isHooked := true;
      stdout.write := Metered(originalWrite);
    }

    /** One call of the installed wrapper: the original writer returned
        `underlying`, and the call took `writeTimeMs`. */
    method InterceptedWrite(chunk: Chunk, underlying: bool, writeTimeMs: real) returns (result: bool)
      requires Valid()
      modifies this
      ensures Valid()
      ensures result == underlying
      ensures totalWrites == old(totalWrites) + 1 && writeTimes == old(writeTimes) + [writeTimeMs]
      ensures totalBytes == old(totalBytes) + ByteLength(chunk)
      ensures backpressureEvents == old(backpressureEvents) + (if underlying then 0 else 1)
      ensures isHooked == old(isHooked)
    {
      result := underlying;
      totalWrites := totalWrites + 1;
      writeTimes := writeTimes + [writeTimeMs];
      match chunk {
        case Text(s) => totalBytes := totalBytes + Utf8Length(s);
        case Bytes(b) => totalBytes := totalBytes + |b|;
      }
      if !result {
        backpressureEvents := backpressureEvents + 1;
      }
    }

    /** Installs the captured bound copy; a call while unhooked does
        nothing. After a start, the stream therefore does not hold the
        writer found at construction again, only a copy that calls it. */
    method Stop()
      requires Valid()
      modifies this, stdout
      ensures Valid() && !isHooked
      ensures old(isHooked) ==> stdout.write == Bound(before) && stdout.write != before
      ensures !old(isHooked) ==> unchanged(this, stdout)
      ensures writeTimes == old(writeTimes) && totalBytes == old(totalBytes)
      ensures totalWrites == old(totalWrites) && backpressureEvents == old(backpressureEvents)
    {
      if !isHooked {
        return;
      }
      stdout.write := originalWrite;
      isHooked := false;
      BoundIsNew(before);
    }

    method GetWriteTimes() returns (times: seq<real>)
      ensures times == writeTimes
    {
      times := writeTimes;
    }

    method GetMetrics() returns (m: StdoutMetrics)
      ensures m == StdoutMetricsOf(writeTimes, totalWrites, totalBytes, backpressureEvents)
    {
      m := StdoutMetricsOf(writeTimes, totalWrites, totalBytes, backpressureEvents);
    }

    /** Zeroes the counters; the hook stays as it is. */
    method Reset()
      requires Valid()
      modifies this
      ensures Valid()
      ensures writeTimes == [] && totalBytes == 0 && totalWrites == 0 && backpressureEvents == 0
      ensures isHooked == old(isHooked)
    {
      writeTimes := [];
      totalBytes := 0;
      totalWrites := 0;
      backpressureEvents := 0;
    }
  }
}
