# taskbench measurement core in Dafny

This project models the measurement bookkeeping of taskbench, a benchmark suite for CPU, RAM and GPU. The workloads themselves are out of scope. What is modelled:

- **The current result registry** (`taskbench::AbstractBenchmark`, `taskbench::BenchmarkResult`), module `Registry`, file `registry.dfy`.
  - A benchmark name maps to a series.
  - A series holds fixed costs (bytes, operations) and an append-only list of runtime samples.
  - Recording under an unregistered name throws `std::runtime_error` and changes nothing.
  - Registering a name twice keeps the first series.
  - `results()` comes in two forms: a by-value copy, whose series are fresh objects, and a `const` form that aliases the live map.
  - The throughput accessors divide a cost by the minimum, mean, maximum or standard deviation of the runtimes.
  - The module also holds the buffer-size constants and `_array_size`.
- **The older registry** (`taskbench::utils::AbstractBenchmark`), module `LegacyRegistry`, file `legacy_registry.dfy`. The RAM suite still records into it. A name maps straight to a series of durations. `_add_result` creates a missing series instead of failing.
- **Statistics**, module `Stats`, file `stats.dfy`.
  - `mean` is 0 for an empty series and sum over n otherwise.
  - The population standard deviation divides by n.
  - The generic `stdev` template needs a non-empty input. The `duration<double>` specialisation returns 0 for an empty one.
  - `std::sqrt` is a parameter constrained to be a square root. What is proved about a standard deviation goes through `stdev >= 0` and `stdev * stdev == variance`.
  - `utils::min` and `utils::max` are not defined in the shown files. They are modelled as the minimum and maximum of a non-empty sequence.
- **The stop watch** `utils::Timer`, module `Timing`, file `timer.dfy`.
  - Its one field is a nanosecond time point.
  - `start` and `round` overwrite it; `stop` and `count` only read it.
  - The high-resolution clock is a `Clock` object: a fixed sequence of readings, consumed one per `Now()`.
- **The GPU suite's time-boxed loops** (`taskbench::gpu::Benchmark`), module `Gpu`, file `gpu.dfy`.
  - Each `run_*` registers a name with its declared cost, then runs `while (rt > 0)`.
  - Each pass times the workload with one timer, records the sample, and subtracts a lap of a second timer from the budget.
  - The OpenCL workload is opaque. A `Device` value says whether preparing a kernel, or a given pass, raises `OpenCLError`.
- **The RAM suite's `run_read`** (`taskbench::ram::Benchmark`), module `Ram`, file `ram.dfy`.
  - In each sequential iteration four workers read disjoint quarters of a 1 GiB buffer; together they read all of it. In each random iteration worker j is handed its own list j and the count x, and no list is shorter than x.
  - Each iteration's single timing window brackets all the workers, and gives one sample per iteration.
- **The CPU synthetic kernels** `add_sub`, `mul` and `div` over an integer type, module `Synthetic`, file `synthetic.dfy`.
  - Each runs its 100-statement body statement by statement.
  - `add_sub` always returns 0.
  - `mul` is bounded by its threshold reset.
  - `div` never overflows, and with positive operands its reset never fires.
- **`utils::pretty_ops`**, module `Format`, file `format.dfy`: the choice of the op/s, K, M, G or T scale, and the number shown before the suffix.

## Behaviour worth noting

Each point is a fact about the code, and the model follows it.

- **A budget of 0 or less runs no pass.** Each GPU loop tests `rt.count() > 0` before the first pass (src/tasks/gpu/benchmark.cpp:61), so it records nothing: see `Gpu.Benchmark.TimeBoxed`.
- **The lap comes last in a pass.** A pass runs and records the workload, then takes `rt_timer.round()` (src/tasks/gpu/benchmark.cpp:62-68).
- **The RAM worker count is fixed.** `run_read` uses 4 workers whatever the hardware (src/tasks/ram/benchmark.cpp:44).
- **Device errors end a GPU run quietly.** Each GPU `run_*` catches `OpenCLError` itself and returns normally, keeping the samples already recorded (src/tasks/gpu/benchmark.cpp:75, 145, 214, 289).
- **The RAM suite's signatures differ between header and implementation.** The `.cpp` implements `run_*(unsigned int iterations)` against the older registry (src/tasks/ram/benchmark.cpp:21, 32). The header declares `run_*(seconds runtime)` (include/taskbench/tasks/ram/benchmark.h:28-32). The model follows the `.cpp`.

## Model

| member | source | states |
|---|---|---|
| Stats.Mean | include/taskbench/utils/statistics.h:20-26 | 0 for an empty series; otherwise the mean times the count is the sum of the samples |
| Stats.Min | src/benchmark.cpp:56 | the smallest sample of a non-empty series: it is one of the samples and no sample is below it |
| Stats.Max | src/benchmark.cpp:47 | the largest sample of a non-empty series: it is one of the samples and no sample is above it |
| Stats.SumAppend | src/utils/statistics.cpp:19 | the accumulated sum of a series with one more sample is the old sum plus that sample |
| Stats.MeanBetweenMinMax | src/utils/statistics.cpp:14-21 | the mean of a non-empty series lies between its minimum and maximum |
| Stats.SumOfConstant | src/utils/statistics.cpp:19 | n equal samples c sum to n * c |
| Stats.SumSquaresPositive | src/utils/statistics.cpp:31-34 | one sample away from the mean makes the accumulated squared differences positive |
| Stats.VarianceNonNegative | src/utils/statistics.cpp:35 | the mean squared difference is never negative, so `sqrt` is applied inside its domain |
| Stats.VarianceZeroIffConstant | src/utils/statistics.cpp:28-36 | the variance is 0 exactly when all samples are equal (both directions) |
| Stats.VarianceOfSingleSample | src/utils/statistics.cpp:28-36 | a single sample has variance 0 |
| Stats.PopulationDivisorExample | include/taskbench/utils/statistics.h:37 | samples 1, 2, 3: mean 2 and variance 2/3, which differs from the n - 1 divisor's 1 |
| Stats.Stdev | include/taskbench/utils/statistics.h:28-39 | the loop's accumulated squared differences give sqrt of the population variance; the result is >= 0, squares to the variance, and is 0 exactly when all samples are equal; requires a non-empty series because the template divides by the size |
| Stats.StdevDuration | src/utils/statistics.cpp:23-37 | 0 for an empty series; otherwise as `Stdev`: >= 0, squares to the population variance, 0 exactly when all samples are equal |
| Registry.SizeConstantsArePowersOfTwo | include/taskbench/benchmark.h:20-33 | S_1_MiB = 2^20, S_1_GiB = 2^30, S_8_GiB = 2^33, each constant is twice the previous one, and constant i is 2^(20+i) |
| Registry.ArraySize | include/taskbench/benchmark.h:110-113 | the truncating count of elements: count * size <= buffer < (count + 1) * size |
| Registry.RateBounds | src/benchmark.cpp:23-44 | over positive runtimes, the cost over the maximum runtime is the smallest per-sample rate and the cost over the minimum the largest |
| Registry.MeanRateBetween | src/benchmark.cpp:26 | over positive runtimes, the cost over the mean runtime lies between the cost over the maximum and the cost over the minimum |
| Registry.BenchmarkResult.constructor | src/benchmark.cpp:16-17 | a new series has the given name, data size and operation count and no samples; those three are `const` and never change |
| Registry.BenchmarkResult.Copy | src/benchmark.cpp:88 | the member-wise copy made when the map is returned by value: same name, costs and samples |
| Registry.BenchmarkResult.AddRuntime | src/benchmark.cpp:20 | appends exactly the one sample at the end, earlier samples kept in order |
| Registry.BenchmarkResult.RuntimeMean | src/benchmark.cpp:50 | 0 with no samples; otherwise between the minimum and the maximum runtime |
| Registry.BenchmarkResult.RuntimeMax | src/benchmark.cpp:47 | a recorded runtime that no runtime exceeds |
| Registry.BenchmarkResult.RuntimeMin | src/benchmark.cpp:56 | a recorded runtime that no runtime is below |
| Registry.BenchmarkResult.RuntimeStdev | src/benchmark.cpp:53 | 0 with no samples; otherwise sqrt of the population variance, >= 0, and 0 exactly when all runtimes are equal |
| Registry.BenchmarkResult.BpsMax | src/benchmark.cpp:23 | the data size over the minimum runtime; over positive runtimes no sample's bytes-per-second rate exceeds it |
| Registry.BenchmarkResult.BpsMin | src/benchmark.cpp:32 | the data size over the maximum runtime; over positive runtimes no sample's rate is below it |
| Registry.BenchmarkResult.BpsMean | src/benchmark.cpp:26 | the data size over the mean runtime, which lies between the rates at the maximum and the minimum runtime |
| Registry.BenchmarkResult.BpsStdev | src/benchmark.cpp:29 | the data size over the (positive) standard deviation of the runtimes |
| Registry.BenchmarkResult.OpsMax | src/benchmark.cpp:35 | the operation count over the minimum runtime; over positive runtimes no sample's operations-per-second rate exceeds it |
| Registry.BenchmarkResult.OpsMin | src/benchmark.cpp:44 | the operation count over the maximum runtime; over positive runtimes no sample's rate is below it |
| Registry.BenchmarkResult.OpsMean | src/benchmark.cpp:38 | the operation count over the mean runtime, between the rates at the maximum and the minimum runtime |
| Registry.BenchmarkResult.OpsStdev | src/benchmark.cpp:41 | the operation count over the (positive) standard deviation of the runtimes |
| Registry.BenchmarkResult.Json | src/benchmark.cpp:62-72 | the record holds the name, the data size, `iterations` equal to the number of samples, and the samples in order |
| Registry.ThroughputOrder | src/benchmark.cpp:23-44 | over non-empty positive runtimes: bps_min <= bps_mean <= bps_max and ops_min <= ops_mean <= ops_max |
| Registry.JsonOmitsNumOperations | src/benchmark.cpp:62-72 | two series differing only in their operation count give the same record: `num_operations` is not emitted |
| Registry.AbstractBenchmark.constructor | include/taskbench/benchmark.h:87 | a new registry is empty |
| Registry.AbstractBenchmark.Reset | src/benchmark.cpp:82 | every series is deleted |
| Registry.AbstractBenchmark.ResultsView | src/benchmark.cpp:91 | the const `results()` hands out the registry's own series objects under the same names |
| Registry.AbstractBenchmark.Results | src/benchmark.cpp:88 | the by-value `results()`: the same names, each with a fresh series object holding the same name, costs and samples |
| Registry.AbstractBenchmark.RegisterBenchmark | src/benchmark.cpp:94-96 | adds the name; a new name gets a fresh empty series with the given costs; an existing name keeps its series untouched; no other series changes |
| Registry.AbstractBenchmark.AddResult | src/benchmark.cpp:98-103 | an unregistered name returns the runtime error with its message and changes nothing; a registered one gets the sample appended; the key set and every other series stay as they were |
| Registry.SnapshotAndView | src/benchmark.cpp:82-103 | a by-value snapshot keeps its samples through a later `_add_result` and `reset`, while the const view shows the appended sample |
| LegacyRegistry.Record | src/utils/benchmark.cpp:39-44 | the key set gains the key; the key's series, created empty when missing, gains the value at its end; every other key's series is unchanged |
| LegacyRegistry.RecordAllStep | src/utils/benchmark.cpp:39-44 | recording one more value is one more `_add_result` |
| LegacyRegistry.RecordEachIsRecordAll | src/utils/benchmark.cpp:39-44 | a run of `_add_result` calls, one per value, appends the whole run to the key's series at once |
| LegacyRegistry.RecordAllAppends | src/utils/benchmark.cpp:39-44 | recording a run adds the key only when the run is non-empty, appends exactly the run to its series, and changes no other key |
| LegacyRegistry.RecordAllOtherKey | src/utils/benchmark.cpp:39-44 | recording under one key leaves every other key's series as it was |
| LegacyRegistry.AbstractBenchmark.constructor | include/taskbench/utils/benchmark.h:49 | a new registry is empty |
| LegacyRegistry.AbstractBenchmark.Reset | src/utils/benchmark.cpp:15 | the map is empty afterwards |
| LegacyRegistry.AbstractBenchmark.Results | src/utils/benchmark.cpp:18 | the by-value copy: the series are values, so the copy is the current contents |
| LegacyRegistry.AbstractBenchmark.AddResult | src/utils/benchmark.cpp:39-44 | never fails: the new map is `Record` of the old one |
| LegacyRegistry.SnapshotSurvivesReset | src/utils/benchmark.cpp:15-21 | a snapshot taken before an `_add_result` and a `reset` still holds the old contents; the registry is empty |
| Timing.SecondsAdd | src/utils/timer.cpp:29-34 | converting nanoseconds to seconds adds up |
| Timing.Clock.Now | include/taskbench/utils/timer.h:18 | each reading of the clock returns the next reading of the run |
| Timing.Timer.constructor | include/taskbench/utils/timer.h:21 | a new timer holds the clock's epoch |
| Timing.Timer.Start | src/utils/timer.cpp:13-15 | the reference instant becomes now |
| Timing.Timer.Stop | src/utils/timer.cpp:18-21 | returns now - start, which is >= 0, and leaves the reference instant in place |
| Timing.Timer.Count | src/utils/timer.cpp:24-26 | returns now - start, which is >= 0, with no change of state |
| Timing.Timer.Round | src/utils/timer.cpp:29-34 | returns now - old start, which is >= 0, and moves the reference instant to now |
| Timing.Laps | src/utils/timer.cpp:29-34 | one lap per `round` |
| Timing.LapsTelescope | src/utils/timer.cpp:29-34 | the laps of consecutive `round`s after a start add up to the time from the start to the last `round` |
| Timing.LapsNonNegative | src/utils/timer.cpp:29-34 | with readings that do not go backwards, every lap is >= 0 |
| Gpu.DeclaredCost | src/tasks/gpu/benchmark.cpp:44-270 | the costs each name is registered with: a benchmark declares bytes or operations, never both; the bytes are the whole device buffer; a name the suite does not use declares nothing |
| Gpu.DeclaredCostValues | src/tasks/gpu/benchmark.cpp:44-270 | matrix multiplication declares (0 bytes, 2 * 2048^3 - 2048^2 ops); memory and transfer declare (512 MiB, 0 ops); both synthetic kernels declare (0 bytes, 2048 * 2^27 ops) |
| Gpu.SamplesLength | src/tasks/gpu/benchmark.cpp:61-69 | one sample per pass |
| Gpu.SamplesWithinBudget | src/tasks/gpu/benchmark.cpp:58-69 | each pass's sample lies inside its lap, so the samples sum to at most the budget time consumed |
| Gpu.PassReadings | src/tasks/gpu/benchmark.cpp:62-68 | one pass's workload window and lap: the sample is positive, the lap ends at the next pass's start, and the laps so far add up to the time since the budget timer started |
| Gpu.ElapsedIncreasing | src/tasks/gpu/benchmark.cpp:61-68 | each pass ends strictly later than the one before it, so the budget runs out |
| Gpu.WithinBudget | src/tasks/gpu/benchmark.cpp:61 | time still under the budget is at most the budget's whole nanoseconds |
| Gpu.AppendExtends | src/tasks/gpu/benchmark.cpp:58-69 | a loop that keeps every series object and appends to its own name's samples only extends the registry by that name |
| Gpu.ExtendsTransitive | src/tasks/gpu/benchmark.cpp:21-30 | two runs one after the other extend the registry by the union of their names |
| Gpu.UnrecordedTransitive | src/tasks/gpu/benchmark.cpp:21-30 | two runs that record no sample together record none |
| Gpu.Benchmark.constructor | include/taskbench/tasks/gpu/benchmark.h:38 | an empty registry and a 512 MiB device buffer |
| Gpu.Benchmark.Measure | src/tasks/gpu/benchmark.cpp:62-64 | the pass timer brackets the workload: a working pass gives the time between two consecutive clock readings; a failing one reports the device error |
| Gpu.Benchmark.Pass | src/tasks/gpu/benchmark.cpp:62-68 | a failing pass records nothing; a working one appends its sample and takes the lap off the remaining budget, keeping the loop's progress invariant |
| Gpu.Benchmark.CloseLap | src/tasks/gpu/benchmark.cpp:68 | the budget timer's `round` returns the time since its last start and restarts it at the new reading |
| Gpu.Benchmark.Loop | src/tasks/gpu/benchmark.cpp:60-69 | from a fresh budget, the series gains exactly the samples of the passes run; a non-positive budget runs none; a completed loop has used up the budget, and every pass started under it; every pass run succeeded on the device, and a loop that did not complete stopped because the next pass failed |
| Gpu.Benchmark.TimeBoxed | src/tasks/gpu/benchmark.cpp:58-69 | the samples recorded are exactly those of the passes run; a non-positive budget runs no pass; a completed loop ends at the first check after the laps reach the budget, so the last pass may overshoot; every pass started under the budget; the samples sum to at most the time consumed; every pass run succeeded on the device, and a loop that did not complete stopped because the next pass failed |
| Gpu.Benchmark.Register | src/tasks/gpu/benchmark.cpp:44 | the name is registered with its declared costs; nothing is recorded and no other series changes |
| Gpu.Benchmark.RegisterThenTime | src/tasks/gpu/benchmark.cpp:42-70 | register, then loop: the name is registered afterwards and no name is dropped; the registry is extended by that name only, and nothing is recorded with a non-positive budget; the run is reported as not completed only when some pass of that kernel fails on the device |
| Gpu.Benchmark.RunMmul | src/tasks/gpu/benchmark.cpp:33-78 | "Matrix Multiplication" is registered afterwards, with its declared cost, whatever the device does; the registry is extended by that name only and no name is dropped |
| Gpu.Benchmark.RegisterPrepareTime | src/tasks/gpu/benchmark.cpp:94-116 | register, prepare the kernel, then loop: the name is registered afterwards even when preparation fails; the registry is extended by that name only, and a failing preparation reports the run as not completed; the run is reported as not completed only when the preparation or some pass of that kernel fails on the device |
| Gpu.Benchmark.RunMemory | src/tasks/gpu/benchmark.cpp:81-148 | "Memory Write" is registered afterwards whatever the device does, and "Memory Read" too when the write kernel prepares and none of its passes fails; the registry is extended by "Memory Write" and "Memory Read" only, with their declared costs; a non-positive budget records nothing |
| Gpu.Benchmark.RunTransferSpeed | src/tasks/gpu/benchmark.cpp:151-217 | "Data Transfer Speed: RAM to GPU" is registered afterwards whatever the device does, and "Data Transfer Speed: GPU to RAM" too when no RAM-to-GPU pass fails; the registry is extended by the two transfer names only |
| Gpu.Benchmark.RunSynthetic | src/tasks/gpu/benchmark.cpp:220-292 | "Synthetic IOPS" is registered afterwards when its preparation succeeds, and "Synthetic FLOPS" too when no IOPS pass fails and the FLOPS kernel prepares; a failing IOPS preparation registers nothing at all; the registry is extended by the two synthetic names only |
| Gpu.Benchmark.RunAll | src/tasks/gpu/benchmark.cpp:21-30 | the four runs in turn: "Matrix Multiplication", "Memory Write" and "Data Transfer Speed: RAM to GPU" are registered afterwards, and "Synthetic IOPS" too unless its preparation fails; "Memory Read", "Data Transfer Speed: GPU to RAM" and "Synthetic FLOPS" are registered under the same device conditions as in the single runs; existing series keep their objects and samples, new series carry their declared costs, only the seven suite names are added, and a non-positive budget records no sample |
| Ram.Ranges | src/tasks/ram/benchmark.cpp:63-71 | one range per worker |
| Ram.RangesTile | src/tasks/ram/benchmark.cpp:63-71 | the ranges start at 0, each begins where the previous one ends, they are pairwise disjoint, and together they cover n * q bytes |
| Ram.SequentialCoversBuffer | src/tasks/ram/benchmark.cpp:46-63 | four quarters cover the whole 1 GiB buffer |
| Ram.SequentialRanges | src/tasks/ram/benchmark.cpp:63-71 | the running offset hands worker j the range [j * q, (j + 1) * q); the loop checks that the offset stays within `int` |
| Ram.BuildLists | src/tasks/ram/benchmark.cpp:47-54 | four lists of the same length x, with 4x <= (1 GiB / node size) < 4(x + 1) |
| Ram.RunWorkers | src/tasks/ram/benchmark.cpp:65-110 | the workers of one iteration: sweep workers each read the range starting where the previous one ended and inside the buffer, reading 1 GiB together; walk workers each visit `steps` nodes of a list at least that long, `4 * steps` together |
| Ram.WindowsStep | src/tasks/ram/benchmark.cpp:64-78 | one more iteration appends its own window and keeps the earlier ones |
| Ram.WindowsPositive | src/tasks/ram/benchmark.cpp:67-77 | every sample is positive: the window closes after it opens |
| Ram.AfterRead | src/tasks/ram/benchmark.cpp:64-125 | what `run_read(n)` leaves in the registry: the two series are added to its names exactly when n > 0 |
| Ram.ReadRecordsIterations | src/tasks/ram/benchmark.cpp:64-112 | `run_read(n)` adds exactly n samples to each of its two series, each in the order taken and the random ones after all the sequential ones, and changes no other series; from an empty registry each holds n |
| Ram.Benchmark.constructor | include/taskbench/tasks/ram/benchmark.h:25 | an empty registry |
| Ram.Benchmark.TimedIteration | src/tasks/ram/benchmark.cpp:65-112 | two clock readings bracket the workers, who read the whole buffer (sweep) or 4x nodes (walk) inside the window, and the one sample between the readings is appended under the work's name |
| Ram.Benchmark.TimedLoop | src/tasks/ram/benchmark.cpp:64-125 | n iterations append exactly their n windows, in order, under the work's name |
| Ram.Benchmark.RunRead | src/tasks/ram/benchmark.cpp:32-126 | the lists built once feed every random iteration; the registry afterwards is `AfterRead`: n sequential windows, then n random-read windows |
| Ram.Benchmark.RunWrite | src/tasks/ram/benchmark.cpp:129 | records nothing |
| Ram.Benchmark.RunReadWrite | src/tasks/ram/benchmark.cpp:132 | records nothing |
| Ram.Benchmark.RunAll | src/tasks/ram/benchmark.cpp:21-29 | only the read run records, as `AfterRead` |
| Synthetic.AddSubTarget | include/taskbench/tasks/cpu/synthetic.h:31-141 | statement k of block b updates accumulator (k + b) mod 10 |
| Synthetic.Back | include/taskbench/tasks/cpu/synthetic.h:31-141 | each block updates each accumulator exactly once |
| Synthetic.ReceivedStep | include/taskbench/tasks/cpu/synthetic.h:31-141 | block b adds its one statement for r_j to what r_j has received |
| Synthetic.ReceivedPrefix | include/taskbench/tasks/cpu/synthetic.h:31-141 | before wrapping round, r_j has received the signed operands v_0 .. v_j |
| Synthetic.ReceivedAll | include/taskbench/tasks/cpu/synthetic.h:31-141 | one iteration gives every accumulator each operand once with its sign: all gain v0 - v1 + v2 - ... - v9 |
| Synthetic.AddSub | include/taskbench/tasks/cpu/synthetic.h:18-143 | after n iterations every accumulator holds n * (v0 - v1 + ... - v9), the result is 0 for every input, and 100 * n updates were made |
| Synthetic.HitsRotating | include/taskbench/tasks/cpu/synthetic.h:170-278 | every block but the irregular one updates each accumulator twice |
| Synthetic.HitsBlockSix | include/taskbench/tasks/cpu/synthetic.h:236-245 | the irregular block updates r0 three times and r4 once |
| Synthetic.HitsPerBlock | include/taskbench/tasks/cpu/synthetic.h:170-278 | updates of each accumulator per block |
| Synthetic.UpdatesUpTo | include/taskbench/tasks/cpu/synthetic.h:170-278 | updates of each accumulator in the first b blocks |
| Synthetic.UpdatesPerIteration | include/taskbench/tasks/cpu/synthetic.h:170-278 | one iteration updates r0 .. r4 21, 20, 20, 20 and 19 times |
| Synthetic.ResetAbove | include/taskbench/tasks/cpu/synthetic.h:154-169 | after the reset an accumulator is at most the threshold or is 1, and it changed only if it was above the threshold |
| Synthetic.MulBlockScales | include/taskbench/tasks/cpu/synthetic.h:170-278 | a block multiplies an accumulator by the product of its operands for it |
| Synthetic.MulBlocksScales | include/taskbench/tasks/cpu/synthetic.h:170-278 | the blocks so far multiply an accumulator by the product of their operands for it |
| Synthetic.MulIterationIsProduct | include/taskbench/tasks/cpu/synthetic.h:154-278 | one iteration leaves r_j as its reset value times the product of its operands |
| Synthetic.MulRunBounded | include/taskbench/tasks/cpu/synthetic.h:148-278 | with threshold >= 1 and operands >= 1, every accumulator stays >= 1 and, after any iteration, <= threshold * its per-iteration factor |
| Synthetic.Mul | include/taskbench/tasks/cpu/synthetic.h:145-280 | the accumulators run from 1 through n iterations of reset and the hundred multiplications, which is 100 * n of them |
| Synthetic.TruncDiv | include/taskbench/tasks/cpu/synthetic.h:309-417 | C++ division truncates toward zero: magnitude is the quotient of magnitudes, never larger than the dividend, sign by the usual rule, and the floor quotient for non-negative operands |
| Synthetic.Quotient | include/taskbench/tasks/cpu/synthetic.h:309-417 | the quotient of magnitudes is no larger than the dividend |
| Synthetic.ResetNegative | include/taskbench/tasks/cpu/synthetic.h:293-308 | a negative accumulator goes back to the maximum, any other is unchanged |
| Synthetic.DivBlockShrinks | include/taskbench/tasks/cpu/synthetic.h:309-417 | truncating divisions never make an accumulator larger in magnitude |
| Synthetic.DivRunBounded | include/taskbench/tasks/cpu/synthetic.h:286-418 | every accumulator stays within [-max, max], so the one overflowing division (minimum by -1) never happens |
| Synthetic.NestedDivision | include/taskbench/tasks/cpu/synthetic.h:309-417 | dividing by b and then by c is dividing by b * c |
| Synthetic.DivBlocksIsQuotient | include/taskbench/tasks/cpu/synthetic.h:309-417 | with positive operands, the blocks so far divide a non-negative accumulator by the product of its operands |
| Synthetic.DivRunPositive | include/taskbench/tasks/cpu/synthetic.h:293-418 | with positive operands every accumulator stays >= 0, the reset never fires, and each iteration divides r_j by the same factor `mul` multiplies it by |
| Synthetic.Div | include/taskbench/tasks/cpu/synthetic.h:283-419 | the accumulators run from the maximum through n iterations of reset and the hundred truncating divisions, which is 100 * n of them; a zero operand is excluded once a division runs |
| Format.Suffix | include/taskbench/utils/format.h:26-37 | the five suffixes all end in "op/s", and only the unit scale has no letter before it |
| Format.SuffixNamesScale | include/taskbench/utils/format.h:26-37 | no two scales share a suffix |
| Format.PrettyOps | include/taskbench/utils/format.h:22-38 | the first test that holds picks the scale, so the value lies in that scale's band; the number shown is the value over the scale's divisor |
| Format.Divisor | include/taskbench/utils/format.h:22-38 | every divisor is at least 1 |
| Format.ScaleIsBand | include/taskbench/utils/format.h:22-38 | the scale chosen is s exactly when the value lies in the band of s: exactly one branch applies |
| Format.MantissaRange | include/taskbench/utils/format.h:25-37 | below 1000 (negatives included) the value is shown as is; from 10^3 up to 10^12 the number shown lies in [1, 1000); from 10^12 on it exceeds 1 |
| Format.ScaleMonotone | include/taskbench/utils/format.h:22-38 | a larger value is never shown in a smaller scale |

## Left out

- OpenCL workloads, kernels and buffers (src/tasks/gpu/memory.cpp, mmul.cpp, synthetic.cpp) are not part of this model. A pass is an opaque step, and the `Device` value decides where `OpenCLError` is raised.
- The CPU workloads that wrap libraries (AES, zstd, Eigen, `std::sort`, FFT) are not part of this model. They are code outside the repository or floating-point numerics.
- The sequential RAM kernels are not part of this model. They are thin wrappers in the repository around the C library: `memchr` at src/tasks/ram/read.cpp:15-20, `memset` at src/tasks/ram/write.cpp:14 and `memcpy` at src/tasks/ram/read_write.cpp:14. The bytes they read and write are not modelled, only the time they take.
- src/tasks/cpu/benchmark.cpp is not part of this model. It is an older revision that records under names it never registers. Apart from that it is console output around library calls. Its operation counts are those of the synthetic kernels.
- Data generation (`DataGenerator`, `mt19937`) is left out: it is an external random source. The RAM buffer and lists appear only through their sizes.
- Console output is left out: `fmt::print`, the verbosity branches, `_print_*`, `set_verbosity` and the older `AbstractBenchmark::print`.
- JSON encoding is left out; `Registry.BenchmarkResult.Json` gives only the record's fields. The `{:.2f}` text rendering of `pretty_ops` is left out too; `Format.PrettyOps` gives the scale and the number shown.
- Threads are left out.
  - The RAM workers run one after the other over their disjoint pieces, inside the iteration's timing window (`Ram.RunWorkers`). What each reads is counted, not read.
  - Spawning and joining happen inside one timing window, so only the two bracketing clock readings matter.
  - The memory-bandwidth effect itself is not modelled.
- Floating point is left out.
  - Durations are exact reals (seconds) built from integer nanoseconds, and `double` rounding is not modelled.
  - `std::sqrt` is a parameter constrained by `Stats.IsSqrt`.
  - The `float` instantiations of the synthetic kernels are out.
- Format.Divisor: the Tera divisor is the `float` value of `1000000000000.0f`, which is 999999995904. The other divisors are exact.
- Synthetic.AddSub: works on unbounded integers. The 10 accumulators may overflow `T`, which is undefined behaviour for signed `T` and wrap-around for unsigned `T`; the model shows the value over the integers. `ops` is a ghost count of the updates, because `add_sub` returns only the sum.
- Synthetic.Mul: works on unbounded integers. The products may overflow `T` before the reset at the top of the next iteration; `Synthetic.MulRunBounded` bounds them in terms of the threshold instead. `mul` returns `void`. `r` (the volatile accumulators) and `ops` are outputs of the model only.
- Synthetic.Div: `div` returns `void`. `r` and `ops` are outputs of the model only. `max` is a parameter standing for `numeric_limits<T>::max()`.
- Registry.BenchmarkResult.BpsMax: requires a non-zero minimum runtime. In `double` a zero divisor gives infinity or NaN, which the model does not represent.
- Registry.BenchmarkResult.BpsMin: requires a non-zero maximum runtime, for the same reason.
- Registry.BenchmarkResult.BpsMean: requires a non-zero mean runtime, for the same reason.
- Registry.BenchmarkResult.OpsMax: requires a non-zero minimum runtime, for the same reason.
- Registry.BenchmarkResult.OpsMin: requires a non-zero maximum runtime, for the same reason.
- Registry.BenchmarkResult.OpsMean: requires a non-zero mean runtime, for the same reason.
- Registry.BenchmarkResult.BpsStdev: requires runtimes that are not all equal, so that the standard deviation is not 0.
- Registry.BenchmarkResult.OpsStdev: requires runtimes that are not all equal, for the same reason.
- Registry.BenchmarkResult.RuntimeMax: requires a non-empty series. The definition of `utils::max` is not part of this model.
- Registry.BenchmarkResult.RuntimeMin: requires a non-empty series, for the same reason.
- The getters `name()`, `data_size()` and `runtimes()` are the `const` fields and the `runtimes` field of `Registry.BenchmarkResult`.
- LegacyRegistry.AbstractBenchmark.ResultsView: the const `results()` of the older registry returns the live map. Its series are values, so there is no aliasing to state.
- Timing.Clock.Now: the clock is modelled as strictly increasing (`Timing.StrictlyIncreasing`). A real `high_resolution_clock` may return the same reading twice. The non-decreasing case is covered only by `Timing.LapsNonNegative`.
- Gpu.Benchmark.Measure: a failing pass is taken to read the clock once, whichever statement of the pass raises. Examples are the buffer setup before the timer in the transfer loops, and the read-back after the timer in the IOPS loop.
- Gpu.Benchmark.Pass: each pass uses a fresh pass timer. The source reuses one `timer` for the whole `run_*`, but it is restarted at every pass, so the readings are the same.
- Gpu.Benchmark.TimeBoxed: does not state in its own contract that series other than its own are unchanged. Its callers get that from its `modifies` frame and the registry's `Valid` invariant.
- Gpu.Benchmark.RunAll: inheritance from `AbstractBenchmark` is modelled as composition. The suite holds a `registry` object.
- Ram.Benchmark.constructor: `sizeof(utils::Node<char>)` depends on the platform, so it is a parameter.
- Ram.RunWorkers: `utils::DataGenerator::linked_list`, `utils::Node` and `read::random` are not defined in the files of this model (include/taskbench/tasks/ram/read.h declares only `read::sequential`). That a random worker walks `x` nodes of its list, and that each list holds `linked_list_size / num_threads` nodes, rests on the arguments passed at src/tasks/ram/benchmark.cpp:53 and 104.
- Ram.Benchmark.RunRead: the `unsigned` iteration count is a `nat`, with no wrap-around, and the list nodes are not built.
