/**
 * The GPU suite (`taskbench::gpu::Benchmark`): seven time-boxed loops that
 * register a benchmark name with its declared costs and then, while the
 * budget lasts, time one opaque OpenCL workload per pass.
 *
 * The workloads themselves are not modelled. What the device does is the
 * `Device` oracle: whether preparing a benchmark's kernel raises
 * `OpenCLError`, and whether a given pass does. The clock is a `Clock`
 * whose readings strictly increase.
 */
module Gpu {
  import opened Stats
  import opened Registry
  import opened Timing

  const MatrixMultiplication: string := "Matrix Multiplication"
  const MemoryWrite: string := "Memory Write"
  const MemoryRead: string := "Memory Read"
  const TransferToGpu: string := "Data Transfer Speed: RAM to GPU"
  const TransferToRam: string := "Data Transfer Speed: GPU to RAM"
  const SyntheticIops: string := "Synthetic IOPS"
  const SyntheticFlops: string := "Synthetic FLOPS"

  /** Every name the suite records under. */
  const GpuNames: set<string> := {MatrixMultiplication, MemoryWrite, MemoryRead, TransferToGpu,
                                  TransferToRam, SyntheticIops, SyntheticFlops}

  /** The names `run_all` adds: those of `run_mmul`, `run_synthetic` and `run_memory`, then the transfer names. */
  lemma GpuNamesInRunOrder()
    ensures GpuNames == {MatrixMultiplication} + {SyntheticIops, SyntheticFlops} + {MemoryWrite, MemoryRead}
                        + {TransferToGpu, TransferToRam}
  {
  }

  /** Order of the multiplied square matrices. */
  const MatrixOrder: nat := 2048

  /** `sizeof(float)` and `sizeof(int)` on the targeted platforms. */
  const FloatSize: nat := 4
  const IntSize: nat := 4

  /** Operations the synthetic kernels perform per buffer element. */
  const KernelOperations: nat := 2048

  /** `2 n^3 - n^2` for n = 2048: n^2 dot products of n multiplications and n - 1 additions. */
  function MmulOperations(): nat
  {
    2 * (MatrixOrder * MatrixOrder * MatrixOrder) - MatrixOrder * MatrixOrder
  }

  /**
   * The (data size, operation count) each name is registered with, for a
   * device buffer of `bufferSize` bytes. A benchmark declares bytes or
   * operations, never both; the bytes it declares are the whole buffer; a
   * name the suite does not use declares nothing.
   */
  function DeclaredCost(name: string, bufferSize: nat): (c: (nat, nat))
    ensures c.0 == 0 || c.1 == 0
    ensures c.0 != 0 ==> c.0 == bufferSize
    ensures name !in GpuNames ==> c == (0, 0)
  {
    if name == MatrixMultiplication then (0, MmulOperations())
    else if name in {MemoryWrite, MemoryRead, TransferToGpu, TransferToRam} then (bufferSize, 0)
    else if name == SyntheticIops then (0, KernelOperations * ArraySize(bufferSize, IntSize))
    else if name == SyntheticFlops then (0, KernelOperations * ArraySize(bufferSize, FloatSize))
    else (0, 0)
  }

  /** The costs with the 512 MiB device buffer. */
  lemma DeclaredCostValues()
    ensures DeclaredCost(MatrixMultiplication, S512MiB) == (0, 17175674880)
    ensures forall name :: name in {MemoryWrite, MemoryRead, TransferToGpu, TransferToRam} ==>
      DeclaredCost(name, S512MiB) == (536870912, 0)
    ensures DeclaredCost(SyntheticIops, S512MiB) == DeclaredCost(SyntheticFlops, S512MiB) == (0, 274877906944)
  {
    assert ArraySize(S512MiB, 4) == 134217728;
  }

  /** Where the device raises `OpenCLError`: while preparing a benchmark, or in pass `k` of its loop. */
  datatype Device = Device(setupFails: string -> bool, passFails: (string, nat) -> bool)

  /**
   * The device lets `run_synthetic` reach its FLOPS block: the IOPS kernel
   * prepares, no IOPS pass fails, and the FLOPS kernel prepares.
   */
  ghost predicate IopsThenFlops(device: Device)
  {
    && !device.setupFails(SyntheticIops)
    && (forall p :: !device.passFails(SyntheticIops, p))
    && !device.setupFails(SyntheticFlops)
  }

  /** Time from the reading that started the budget timer to the reading that ended pass `k`. */
  function Elapsed(reading: nat -> int, first: nat, k: nat): int
  {
    reading(first + 3 * k) - reading(first)
  }

  /**
   * The samples of the first `k` passes of a loop whose budget timer
   * started at reading `first`: pass `i` is timed from reading
   * `first + 3i + 1` to reading `first + 3i + 2`, and its lap ends at
   * reading `first + 3i + 3`.
   */
  function Samples(reading: nat -> int, first: nat, k: nat): seq<real>
  {
    if k == 0 then []
    else Samples(reading, first, k - 1) + [Seconds(reading(first + 3 * k - 1) - reading(first + 3 * k - 2))]
  }

  lemma {:induction false} SamplesLength(reading: nat -> int, first: nat, k: nat)
    ensures |Samples(reading, first, k)| == k
  {
    if k > 0 {
      SamplesLength(reading, first, k - 1);
    }
  }

  /**
   * Each pass's sample lies inside its lap, so the recorded samples add up
   * to no more than the time consumed from the budget.
   */
  lemma {:induction false} SamplesWithinBudget(reading: nat -> int, first: nat, k: nat)
    requires StrictlyIncreasing(reading)
    ensures Sum(Samples(reading, first, k)) <= Seconds(Elapsed(reading, first, k))
  {
    if k > 0 {
      SamplesWithinBudget(reading, first, k - 1);
      var sample := Seconds(reading(first + 3 * k - 1) - reading(first + 3 * k - 2));
      SumAppend(Samples(reading, first, k - 1), sample);
      assert Precedes(reading, first + 3 * k - 3, first + 3 * k - 2);
      assert Precedes(reading, first + 3 * k - 1, first + 3 * k);
    }
  }

  /**
   * The state of a loop after `k` passes, its budget timer started at
   * reading `first`: the clock has been read `1 + 3k` times, the budget
   * timer was last restarted at the end of pass `k`, the remaining budget is
   * the budget less the time elapsed, and the series holds the `k` samples
   * after the ones it had before.
   */
  ghost predicate Progress(ticks: nat, rtStart: int, rt: real, runtimes: seq<real>, reading: nat -> int,
                           first: nat, before: seq<real>, runtime: real, k: nat)
  {
    && ticks == first + 1 + 3 * k
    && rtStart == reading(first + 3 * k)
    && rt == runtime - Seconds(Elapsed(reading, first, k))
    && runtimes == before + Samples(reading, first, k)
  }

  /**
   * The readings of pass `k`, taken at ticks `t0` (pass timer started),
   * `t1` (pass timer stopped) and `t2` (budget timer's round): the
   * pass's sample and the budget's new elapsed time.
   */
  lemma PassReadings(reading: nat -> int, first: nat, k: nat, t0: nat, t1: nat, t2: nat)
    requires StrictlyIncreasing(reading) && t0 == first + 1 + 3 * k && t1 == t0 + 1 && t2 == t1 + 1
    ensures reading(t0) < reading(t1)
    ensures reading(first + 3 * k) < reading(t2)
    ensures Samples(reading, first, k + 1) == Samples(reading, first, k) + [Seconds(reading(t1) - reading(t0))]
    ensures t2 + 1 == first + 1 + 3 * (k + 1) && reading(t2) == reading(first + 3 * (k + 1))
    ensures Seconds(Elapsed(reading, first, k + 1))
      == Seconds(Elapsed(reading, first, k)) + Seconds(reading(t2) - reading(first + 3 * k))
  {
    assert Precedes(reading, t0, t1);
    assert Precedes(reading, first + 3 * k, t2);
    SecondsAdd(Elapsed(reading, first, k), reading(t2) - reading(first + 3 * k));
  }

  /** Each pass ends strictly later than the one before it. */
  lemma ElapsedIncreasing(reading: nat -> int, first: nat, k: nat)
    requires StrictlyIncreasing(reading)
    ensures Elapsed(reading, first, k) < Elapsed(reading, first, k + 1)
  {
    assert Precedes(reading, first + 3 * k, first + 3 * (k + 1));
  }

  /** Time still under the budget, in nanoseconds, is at most the budget's whole nanoseconds. */
  lemma WithinBudget(runtime: real, ns: int)
    requires Seconds(ns) < runtime
    ensures ns <= (runtime * 1000000000.0).Floor
  {
  }

  /**
   * What a `run_*` call does to the registry, from contents `before` to
   * contents `after`, for the names it owns: the series already there stay
   * (same objects, samples only appended), a new series carries its
   * declared costs, and no series outside `names` changes.
   */
  ghost predicate Extends(before: map<string, Entry>, after: map<string, Entry>, names: set<string>, bufferSize: nat)
  {
    && before.Keys <= after.Keys <= before.Keys + names
    && (forall k :: k in before ==> after[k].series == before[k].series && before[k].runtimes <= after[k].runtimes)
    && (forall k :: k in before && k !in names ==> after[k].runtimes == before[k].runtimes)
    && (forall k :: k in after && k !in before ==>
          (after[k].series.dataSize, after[k].series.numOperations) == DeclaredCost(k, bufferSize))
  }

  /** No sample was recorded between `before` and `after`: new series are empty. */
  ghost predicate Unrecorded(before: map<string, Entry>, after: map<string, Entry>)
  {
    forall k :: k in after ==> after[k].runtimes == (if k in before then before[k].runtimes else [])
  }

  /** Two runs one after the other extend the registry by the union of their names. */
  lemma ExtendsTransitive(a: map<string, Entry>, b: map<string, Entry>, c: map<string, Entry>,
                          n1: set<string>, n2: set<string>, bufferSize: nat)
    requires Extends(a, b, n1, bufferSize) && Extends(b, c, n2, bufferSize)
    ensures Extends(a, c, n1 + n2, bufferSize)
  {
  }

  lemma UnrecordedTransitive(a: map<string, Entry>, b: map<string, Entry>, c: map<string, Entry>)
    requires a.Keys <= b.Keys && Unrecorded(a, b) && Unrecorded(b, c)
    ensures Unrecorded(a, c)
  {
  }

  /**
   * A loop over one registered name keeps every series object and appends
   * to that name's samples only.
   */
  lemma AppendExtends(s0: map<string, Entry>, s1: map<string, Entry>, name: string, bufferSize: nat)
    requires name in s0 && s1.Keys == s0.Keys
    requires forall k :: k in s0 ==> s1[k].series == s0[k].series
    requires s0[name].runtimes <= s1[name].runtimes
    requires forall k :: k in s0 && k != name ==> s1[k].runtimes == s0[k].runtimes
    ensures Extends(s0, s1, {name}, bufferSize)
    ensures s1[name].runtimes == s0[name].runtimes ==> Unrecorded(s0, s1)
  {
  }

  class Benchmark {
    /** The registry this suite inherits from `AbstractBenchmark`. */
    const registry: AbstractBenchmark
    /** Bytes moved by the memory and transfer benchmarks. */
    const bufferSize: nat

    constructor ()
      ensures fresh(registry) && registry.benchmarkResult == map[] && registry.Valid()
      ensures bufferSize == S512MiB
    {
      registry := new AbstractBenchmark();
      bufferSize := S512MiB;
    }

    /**
     * The timed part of a pass: restart the pass timer, run the workload
     * on the device and stop the timer. A failing workload reads the clock
     * once and yields no sample.
     */
    method Measure(name: string, clock: Clock, device: Device, pass: nat) returns (failed: bool, sample: real)
      requires StrictlyIncreasing(clock.reading)
      modifies clock
      ensures failed == device.passFails(name, pass)
      ensures failed ==> clock.ticks == old(clock.ticks) + 1
      ensures !failed ==> clock.ticks == old(clock.ticks) + 2
      ensures !failed ==> sample == Seconds(clock.reading(old(clock.ticks) + 1) - clock.reading(old(clock.ticks)))
    {
      var timer := new Timer();
      var now := clock.Now();
      timer.Start(now);
      failed := device.passFails(name, pass);
      if failed {
        return failed, 0.0;
      }
      assert Precedes(clock.reading, clock.ticks - 1, clock.ticks);
      now := clock.Now();
      sample := timer.Stop(now);
    }

    /**
     * One pass of the loop: time the workload, record the sample under
     * `name`, then take the lap of the budget timer off the remaining
     * budget `rt`. A failing pass records nothing. The pass is the
     * `pass`-th of a loop whose budget timer started at reading `first`.
     */
    method Pass(name: string, series: BenchmarkResult, clock: Clock, device: Device, rtTimer: Timer, rt: real,
                pass: nat, ghost runtime: real, ghost first: nat, ghost before: seq<real>)
      returns (failed: bool, remaining: real)
      requires registry.Valid() && name in registry.benchmarkResult && registry.benchmarkResult[name] == series
      requires StrictlyIncreasing(clock.reading)
      requires Progress(clock.ticks, rtTimer.start, rt, series.runtimes, clock.reading, first, before, runtime, pass)
      modifies clock, series, rtTimer
      ensures failed == device.passFails(name, pass)
      ensures failed ==> series.runtimes == old(series.runtimes)
      ensures !failed ==>
        Progress(clock.ticks, rtTimer.start, remaining, series.runtimes, clock.reading, first, before, runtime, pass + 1)
    {
      ghost var t0 := clock.ticks;
      var bmTime;
      failed, bmTime := Measure(name, clock, device, pass);
      if failed {
        return failed, rt;
      }
      var outcome := registry.AddResult(name, bmTime);
      ghost var t2 := clock.ticks;
      PassReadings(clock.reading, first, pass, t0, t0 + 1, t2);
      assert (before + Samples(clock.reading, first, pass)) + [bmTime]
        == before + (Samples(clock.reading, first, pass) + [bmTime]);
      var lap := CloseLap(rtTimer, clock);
      remaining := rt - lap;
    }

    /** `round` on the budget timer at the next clock reading. */
    method CloseLap(rtTimer: Timer, clock: Clock) returns (lap: real)
      requires rtTimer.start <= clock.reading(clock.ticks)
      modifies rtTimer, clock
      ensures clock.ticks == old(clock.ticks) + 1
      ensures rtTimer.start == clock.reading(old(clock.ticks))
      ensures lap == Seconds(clock.reading(old(clock.ticks)) - old(rtTimer.start))
    {
      var now := clock.Now();
      lap := rtTimer.Round(now);
    }

    /**
     * The loop every `run_*` shares: start the budget timer, then while the
     * remaining budget `rt` is positive, time one pass of the workload,
     * record it under `name` and subtract the pass's lap from `rt`.
     * `completed` is false when a pass raised `OpenCLError`, which ends the
     * loop; `passes` counts the passes that recorded a sample.
     */
    method TimeBoxed(name: string, runtime: real, clock: Clock, device: Device) returns (completed: bool, passes: nat)
      requires registry.Valid() && name in registry.benchmarkResult
      requires StrictlyIncreasing(clock.reading)
      modifies clock, registry.benchmarkResult[name]
      ensures completed ==> clock.ticks == old(clock.ticks) + 1 + 3 * passes
      ensures !completed ==> device.passFails(name, passes)
      ensures forall i :: 0 <= i < passes ==> !device.passFails(name, i)
      ensures registry.benchmarkResult[name].runtimes
        == old(registry.benchmarkResult[name].runtimes) + Samples(clock.reading, old(clock.ticks), passes)
      ensures runtime <= 0.0 ==> completed && passes == 0
      ensures completed ==> runtime <= Seconds(Elapsed(clock.reading, old(clock.ticks), passes))
      ensures passes > 0 ==> Seconds(Elapsed(clock.reading, old(clock.ticks), passes - 1)) < runtime
      ensures Sum(Samples(clock.reading, old(clock.ticks), passes))
        <= Seconds(Elapsed(clock.reading, old(clock.ticks), passes))
    {
      ghost var first := clock.ticks;
      ghost var reading := clock.reading;
      var series := registry.benchmarkResult[name];
      ghost var before := series.runtimes;
      var rtTimer := new Timer();
      var now := clock.Now();
      rtTimer.Start(now);
      completed, passes := Loop(name, series, clock, device, rtTimer, runtime, first, before);
      SamplesWithinBudget(reading, first, passes);
    }

    /**
     * The `while (rt > 0)` loop of `TimeBoxed`, entered with the budget
     * timer started at reading `first` and nothing yet subtracted from the
     * budget `runtime`.
     */
    method Loop(name: string, series: BenchmarkResult, clock: Clock, device: Device, rtTimer: Timer,
                runtime: real, ghost first: nat, ghost before: seq<real>)
      returns (completed: bool, passes: nat)
      requires registry.Valid() && name in registry.benchmarkResult && registry.benchmarkResult[name] == series
      requires StrictlyIncreasing(clock.reading)
      requires Progress(clock.ticks, rtTimer.start, runtime, series.runtimes, clock.reading, first, before, runtime, 0)
      modifies clock, series, rtTimer
      ensures completed ==> clock.ticks == first + 1 + 3 * passes
      ensures !completed ==> device.passFails(name, passes)
      ensures forall i :: 0 <= i < passes ==> !device.passFails(name, i)
      ensures series.runtimes == before + Samples(clock.reading, first, passes)
      ensures runtime <= 0.0 ==> completed && passes == 0
      ensures completed ==> runtime <= Seconds(Elapsed(clock.reading, first, passes))
      ensures passes > 0 ==> Seconds(Elapsed(clock.reading, first, passes - 1)) < runtime
    {
      ghost var reading := clock.reading;
      var rt := runtime;
      completed, passes := true, 0;
      while rt > 0.0
        invariant Progress(clock.ticks, rtTimer.start, rt, series.runtimes, reading, first, before, runtime, passes)
        invariant passes > 0 ==> Seconds(Elapsed(reading, first, passes - 1)) < runtime
        invariant runtime <= 0.0 ==> passes == 0
        invariant forall i :: 0 <= i < passes ==> !device.passFails(name, i)
        decreases (runtime * 1000000000.0).Floor - Elapsed(reading, first, passes)
      {
        WithinBudget(runtime, Elapsed(reading, first, passes));
        var failed;
        failed, rt := Pass(name, series, clock, device, rtTimer, rt, passes, runtime, first, before);
        if failed {
          completed := false;
          return;
        }
        ElapsedIncreasing(reading, first, passes);
        passes := passes + 1;
      }
    }

    /** `_register_benchmark` with the costs the suite declares for `name`. */
    method Register(dataSize: nat, numOperations: nat, name: string)
      requires registry.Valid() && (dataSize, numOperations) == DeclaredCost(name, bufferSize)
      modifies registry
      ensures registry.Valid() && name in registry.benchmarkResult
      ensures Extends(old(registry.State()), registry.State(), {name}, bufferSize)
      ensures old(registry.benchmarkResult.Keys) <= registry.benchmarkResult.Keys
      ensures Unrecorded(old(registry.State()), registry.State())
      ensures fresh(registry.benchmarkResult.Values - old(registry.benchmarkResult.Values))
    {
      registry.RegisterBenchmark(dataSize, numOperations, name);
    }

    /** Register `name`, then run its loop. */
    method RegisterThenTime(name: string, dataSize: nat, numOperations: nat, runtime: real, clock: Clock, device: Device)
      returns (completed: bool)
      requires registry.Valid() && (dataSize, numOperations) == DeclaredCost(name, bufferSize)
      requires StrictlyIncreasing(clock.reading)
      modifies registry, clock, registry.benchmarkResult.Values
      ensures registry.Valid()
      ensures name in registry.benchmarkResult
      ensures old(registry.benchmarkResult.Keys) <= registry.benchmarkResult.Keys
      ensures Extends(old(registry.State()), registry.State(), {name}, bufferSize)
      ensures runtime <= 0.0 ==> Unrecorded(old(registry.State()), registry.State())
      ensures fresh(registry.benchmarkResult.Values - old(registry.benchmarkResult.Values))
      ensures !completed ==> exists p :: device.passFails(name, p)
    {
      ghost var s0 := registry.State();
      Register(dataSize, numOperations, name);
      ghost var s1 := registry.State();
      var passes;
      completed, passes := TimeBoxed(name, runtime, clock, device);
      AppendExtends(s1, registry.State(), name, bufferSize);
      ExtendsTransitive(s0, s1, registry.State(), {name}, {name}, bufferSize);
      if runtime <= 0.0 {
        UnrecordedTransitive(s0, s1, registry.State());
      }
    }

    method RunMmul(runtime: real, clock: Clock, device: Device)
      requires registry.Valid() && StrictlyIncreasing(clock.reading)
      modifies registry, clock, registry.benchmarkResult.Values
      ensures registry.Valid()
      ensures Extends(old(registry.State()), registry.State(), {MatrixMultiplication}, bufferSize)
      ensures MatrixMultiplication in registry.benchmarkResult
      ensures old(registry.benchmarkResult.Keys) <= registry.benchmarkResult.Keys
      ensures runtime <= 0.0 ==> Unrecorded(old(registry.State()), registry.State())
      ensures fresh(registry.benchmarkResult.Values - old(registry.benchmarkResult.Values))
    {
      var completed := RegisterThenTime(MatrixMultiplication, 0, MmulOperations(), runtime, clock, device);
    }

    /**
     * Register `name`, prepare its kernel on the device, then run its loop;
     * a failing preparation ends the run with nothing recorded.
     */
    method RegisterPrepareTime(name: string, dataSize: nat, numOperations: nat, runtime: real, clock: Clock, device: Device)
      returns (completed: bool)
      requires registry.Valid() && (dataSize, numOperations) == DeclaredCost(name, bufferSize)
      requires StrictlyIncreasing(clock.reading)
      modifies registry, clock, registry.benchmarkResult.Values
      ensures registry.Valid()
      ensures name in registry.benchmarkResult
      ensures old(registry.benchmarkResult.Keys) <= registry.benchmarkResult.Keys
      ensures Extends(old(registry.State()), registry.State(), {name}, bufferSize)
      ensures runtime <= 0.0 ==> Unrecorded(old(registry.State()), registry.State())
      ensures fresh(registry.benchmarkResult.Values - old(registry.benchmarkResult.Values))
      ensures device.setupFails(name) ==> !completed
      ensures !completed ==> device.setupFails(name) || exists p :: device.passFails(name, p)
    {
      ghost var s0 := registry.State();
      Register(dataSize, numOperations, name);
      if device.setupFails(name) {
        return false;
      }
      ghost var s1 := registry.State();
      var passes;
      completed, passes := TimeBoxed(name, runtime, clock, device);
      AppendExtends(s1, registry.State(), name, bufferSize);
      ExtendsTransitive(s0, s1, registry.State(), {name}, {name}, bufferSize);
      if runtime <= 0.0 {
        UnrecordedTransitive(s0, s1, registry.State());
      }
    }

    /** The kernel is prepared after the name is registered. */
    method RunMemory(runtime: real, clock: Clock, device: Device)
      requires registry.Valid() && StrictlyIncreasing(clock.reading)
      modifies registry, clock, registry.benchmarkResult.Values
      ensures registry.Valid()
      ensures Extends(old(registry.State()), registry.State(), {MemoryWrite, MemoryRead}, bufferSize)
      ensures MemoryWrite in registry.benchmarkResult
      ensures !device.setupFails(MemoryWrite) && (forall p :: !device.passFails(MemoryWrite, p)) ==>
        MemoryRead in registry.benchmarkResult
      ensures old(registry.benchmarkResult.Keys) <= registry.benchmarkResult.Keys
      ensures runtime <= 0.0 ==> Unrecorded(old(registry.State()), registry.State())
      ensures fresh(registry.benchmarkResult.Values - old(registry.benchmarkResult.Values))
    {
      ghost var s0, v0 := registry.State(), registry.benchmarkResult.Values;
      var completed := RegisterPrepareTime(MemoryWrite, bufferSize, 0, runtime, clock, device);
      if !completed {
        return;
      }
      ghost var s1, v1 := registry.State(), registry.benchmarkResult.Values;
      completed := RegisterPrepareTime(MemoryRead, bufferSize, 0, runtime, clock, device);
      assert registry.benchmarkResult.Values - v0 <= (v1 - v0) + (registry.benchmarkResult.Values - v1);
      ExtendsTransitive(s0, s1, registry.State(), {MemoryWrite}, {MemoryRead}, bufferSize);
      if runtime <= 0.0 {
        UnrecordedTransitive(s0, s1, registry.State());
      }
    }

    /** The buffer is prepared inside each pass here, so a failing preparation is a failing pass. */
    method RunTransferSpeed(runtime: real, clock: Clock, device: Device)
      requires registry.Valid() && StrictlyIncreasing(clock.reading)
      modifies registry, clock, registry.benchmarkResult.Values
      ensures registry.Valid()
      ensures Extends(old(registry.State()), registry.State(), {TransferToGpu, TransferToRam}, bufferSize)
      ensures TransferToGpu in registry.benchmarkResult
      ensures (forall p :: !device.passFails(TransferToGpu, p)) ==> TransferToRam in registry.benchmarkResult
      ensures old(registry.benchmarkResult.Keys) <= registry.benchmarkResult.Keys
      ensures runtime <= 0.0 ==> Unrecorded(old(registry.State()), registry.State())
      ensures fresh(registry.benchmarkResult.Values - old(registry.benchmarkResult.Values))
    {
      ghost var s0, v0 := registry.State(), registry.benchmarkResult.Values;
      var completed := RegisterThenTime(TransferToGpu, bufferSize, 0, runtime, clock, device);
      if !completed {
        return;
      }
      ghost var s1, v1 := registry.State(), registry.benchmarkResult.Values;
      completed := RegisterThenTime(TransferToRam, bufferSize, 0, runtime, clock, device);
      assert registry.benchmarkResult.Values - v0 <= (v1 - v0) + (registry.benchmarkResult.Values - v1);
      ExtendsTransitive(s0, s1, registry.State(), {TransferToGpu}, {TransferToRam}, bufferSize);
      if runtime <= 0.0 {
        UnrecordedTransitive(s0, s1, registry.State());
      }
    }

    /** The kernel is prepared before the name is registered, so a failing preparation registers nothing. */
    method RunSynthetic(runtime: real, clock: Clock, device: Device)
      requires registry.Valid() && StrictlyIncreasing(clock.reading)
      modifies registry, clock, registry.benchmarkResult.Values
      ensures registry.Valid()
      ensures Extends(old(registry.State()), registry.State(), {SyntheticIops, SyntheticFlops}, bufferSize)
      ensures !device.setupFails(SyntheticIops) ==> SyntheticIops in registry.benchmarkResult
      ensures IopsThenFlops(device) ==> SyntheticFlops in registry.benchmarkResult
      ensures old(registry.benchmarkResult.Keys) <= registry.benchmarkResult.Keys
      ensures runtime <= 0.0 ==> Unrecorded(old(registry.State()), registry.State())
      ensures device.setupFails(SyntheticIops) ==> registry.State() == old(registry.State())
      ensures fresh(registry.benchmarkResult.Values - old(registry.benchmarkResult.Values))
    {
      if device.setupFails(SyntheticIops) {
        return;
      }
      ghost var s0, v0 := registry.State(), registry.benchmarkResult.Values;
      var completed := RegisterThenTime(SyntheticIops, 0, KernelOperations * ArraySize(bufferSize, IntSize),
                                        runtime, clock, device);
      if !completed || device.setupFails(SyntheticFlops) {
        return;
      }
      ghost var s1, v1 := registry.State(), registry.benchmarkResult.Values;
      completed := RegisterThenTime(SyntheticFlops, 0, KernelOperations * ArraySize(bufferSize, FloatSize),
                                    runtime, clock, device);
      assert registry.benchmarkResult.Values - v0 <= (v1 - v0) + (registry.benchmarkResult.Values - v1);
      ExtendsTransitive(s0, s1, registry.State(), {SyntheticIops}, {SyntheticFlops}, bufferSize);
      if runtime <= 0.0 {
        UnrecordedTransitive(s0, s1, registry.State());
      }
    }

    /** Matrix multiplication, synthetic, memory, then transfer; each catches its own device errors. */
    method RunAll(runtime: real, clock: Clock, device: Device)
      requires registry.Valid() && StrictlyIncreasing(clock.reading)
      modifies registry, clock, registry.benchmarkResult.Values
      ensures registry.Valid()
      ensures Extends(old(registry.State()), registry.State(), GpuNames, bufferSize)
      ensures MatrixMultiplication in registry.benchmarkResult && MemoryWrite in registry.benchmarkResult
      ensures TransferToGpu in registry.benchmarkResult
      ensures !device.setupFails(SyntheticIops) ==> SyntheticIops in registry.benchmarkResult
      ensures !device.setupFails(MemoryWrite) && (forall p :: !device.passFails(MemoryWrite, p)) ==>
        MemoryRead in registry.benchmarkResult
      ensures (forall p :: !device.passFails(TransferToGpu, p)) ==> TransferToRam in registry.benchmarkResult
      ensures IopsThenFlops(device) ==> SyntheticFlops in registry.benchmarkResult
      ensures runtime <= 0.0 ==> Unrecorded(old(registry.State()), registry.State())
    {
      ghost var s0, v0 := registry.State(), registry.benchmarkResult.Values;
      RunMmul(runtime, clock, device);
      ghost var s1, v1 := registry.State(), registry.benchmarkResult.Values;
      RunSynthetic(runtime, clock, device);
      ghost var s2, v2 := registry.State(), registry.benchmarkResult.Values;
      assert v2 - v0 <= (v1 - v0) + (v2 - v1);
      RunMemory(runtime, clock, device);
      ghost var s3, v3 := registry.State(), registry.benchmarkResult.Values;
      assert v3 - v0 <= (v2 - v0) + (v3 - v2);
      RunTransferSpeed(runtime, clock, device);
      ghost var mmul, synthetic := {MatrixMultiplication}, {SyntheticIops, SyntheticFlops};
      ghost var memory, transfer := {MemoryWrite, MemoryRead}, {TransferToGpu, TransferToRam};
      ExtendsTransitive(s0, s1, s2, mmul, synthetic, bufferSize);
      ExtendsTransitive(s0, s2, s3, mmul + synthetic, memory, bufferSize);
      ExtendsTransitive(s0, s3, registry.State(), mmul + synthetic + memory, transfer, bufferSize);
      GpuNamesInRunOrder();
      if runtime <= 0.0 {
        UnrecordedTransitive(s0, s1, s2);
        UnrecordedTransitive(s0, s2, s3);
        UnrecordedTransitive(s0, s3, registry.State());
      }
    }
  }
}
