/**
 * The result registry of the current revision (namespace `taskbench`): the
 * buffer-size constants, `_array_size`, `BenchmarkResult` (one named series
 * of runtime samples with its fixed costs) and `AbstractBenchmark` (the map
 * from benchmark name to series that every suite records into).
 *
 * Runtimes are seconds as exact reals; `std::map` becomes a Dafny `map`
 * whose values are `BenchmarkResult` objects, so that the copy returned by
 * `results()` and the reference returned by `results() const` can be told
 * apart by object identity.
 */
module Registry {
  import opened Stats

  // Buffer sizes in bytes.
  const S1MiB: nat := 0x100000
  const S2MiB: nat := 0x200000
  const S4MiB: nat := 0x400000
  const S8MiB: nat := 0x800000
  const S16MiB: nat := 0x1000000
  const S32MiB: nat := 0x2000000
  const S64MiB: nat := 0x4000000
  const S128MiB: nat := 0x8000000
  const S256MiB: nat := 0x10000000
  const S512MiB: nat := 0x20000000
  const S1GiB: nat := 0x40000000
  const S2GiB: nat := 0x80000000
  const S4GiB: nat := 0x100000000
  const S8GiB: nat := 0x200000000

  /** The size constants from smallest to largest. */
  function SizeConstants(): seq<nat>
  {
    [S1MiB, S2MiB, S4MiB, S8MiB, S16MiB, S32MiB, S64MiB, S128MiB,
     S256MiB, S512MiB, S1GiB, S2GiB, S4GiB, S8GiB]
  }

  function Pow2(k: nat): nat
  {
    if k == 0 then 1 else 2 * Pow2(k - 1)
  }

  lemma {:induction false} Pow2Add(a: nat, b: nat)
    ensures Pow2(a + b) == Pow2(a) * Pow2(b)
  {
    if a > 0 {
      Pow2Add(a - 1, b);
    }
  }

  /** Each constant doubles the previous one, from 2^20 up to 2^33. */
  lemma SizeConstantsArePowersOfTwo()
    ensures S1MiB == Pow2(20) && S1GiB == Pow2(30) && S8GiB == Pow2(33)
    ensures forall i :: 0 < i < |SizeConstants()| ==> SizeConstants()[i] == 2 * SizeConstants()[i - 1]
    ensures forall i :: 0 <= i < |SizeConstants()| ==> SizeConstants()[i] == Pow2(20 + i)
  {
    assert Pow2(4) == 16;
    Pow2Add(4, 4);
    Pow2Add(8, 8);
    Pow2Add(16, 4);
    Pow2Add(20, 10);
    Pow2Add(30, 3);
    forall i | 0 <= i < |SizeConstants()|
      ensures SizeConstants()[i] == Pow2(20 + i)
    {
      Pow2Add(20, i);
      assert Pow2(i) == [1, 2, 4, 8, 16, 32, 64, 128, 256, 512, 1024, 2048, 4096, 8192][i];
    }
  }

  /**
   * `_array_size<T>(buffer_size)`: how many elements of `elementSize` bytes
   * fit in the buffer (truncating quotient).
   */
  function ArraySize(bufferSize: nat, elementSize: nat): (count: nat)
    requires elementSize > 0
    ensures count * elementSize <= bufferSize < (count + 1) * elementSize
  {
    bufferSize / elementSize
  }

  /** What `json()` emits: `num_operations` is not part of the record. */
  datatype JsonRecord = JsonRecord(name: string, dataSize: nat, iterations: nat, runtimes: seq<real>)

  /** Whether `_add_result` returned normally or threw `std::runtime_error`. */
  datatype Outcome = Recorded | RuntimeError(what: string)

  const UnregisteredMessage: string := "Benchmark must be registered before results can be added."

  /** Throughput of a cost over one runtime; the per-sample rate. */
  function Rate(cost: real, runtime: real): real
    requires runtime != 0.0
  {
    cost / runtime
  }

  /**
   * Over positive runtimes, dividing a fixed cost by the largest runtime
   * gives the smallest rate and dividing by the smallest gives the largest.
   */
  lemma RateBounds(cost: real, s: seq<real>)
    requires |s| > 0 && Positive(s) && cost >= 0.0
    ensures Min(s) > 0.0
    ensures forall i :: 0 <= i < |s| ==> Rate(cost, Max(s)) <= Rate(cost, s[i]) <= Rate(cost, Min(s))
  {
    assert Min(s) in s;
    forall i | 0 <= i < |s|
      ensures Rate(cost, Max(s)) <= Rate(cost, s[i]) <= Rate(cost, Min(s))
    {
      DivAntitone(cost, s[i], Max(s));
      DivAntitone(cost, Min(s), s[i]);
    }
  }

  /** The rate at the mean runtime lies between the extreme rates. */
  lemma MeanRateBetween(cost: real, s: seq<real>)
    requires |s| > 0 && Positive(s) && cost >= 0.0
    ensures Min(s) > 0.0 && Mean(s) > 0.0
    ensures Rate(cost, Max(s)) <= Rate(cost, Mean(s)) <= Rate(cost, Min(s))
  {
    assert Min(s) in s;
    MeanBetweenMinMax(s);
    DivAntitone(cost, Mean(s), Max(s));
    DivAntitone(cost, Min(s), Mean(s));
  }

  lemma DivAntitone(c: real, a: real, b: real)
    requires c >= 0.0 && 0.0 < a <= b
    ensures c / b <= c / a
  {
  }

  /** One benchmark's series: fixed costs and the runtimes recorded so far. */
  class BenchmarkResult {
    const name: string
    const dataSize: nat
    const numOperations: nat
    var runtimes: seq<real>

    constructor (name: string, dataSize: nat, numOperations: nat)
      ensures this.name == name && this.dataSize == dataSize && this.numOperations == numOperations
      ensures runtimes == []
    {
      this.name := name;
      this.dataSize := dataSize;
      this.numOperations := numOperations;
      runtimes := [];
    }

    /** The member-wise copy that copying the map makes of each value. */
    constructor Copy(other: BenchmarkResult)
      ensures name == other.name && dataSize == other.dataSize && numOperations == other.numOperations
      ensures runtimes == other.runtimes
    {
      name := other.name;
      dataSize := other.dataSize;
      numOperations := other.numOperations;
      runtimes := other.runtimes;
    }

    method AddRuntime(runtime: real)
      modifies this
      ensures runtimes == old(runtimes) + [runtime]
    {
      runtimes := runtimes + [runtime];
    }

    function RuntimeMean(): (m: real)
      reads this
      ensures |runtimes| == 0 ==> m == 0.0
      ensures |runtimes| > 0 ==> Min(runtimes) <= m <= Max(runtimes)
    {
      if |runtimes| > 0 then MeanBetweenMinMax(runtimes); Mean(runtimes)
      else Mean(runtimes)
    }

    function RuntimeMax(): (m: real)
      reads this
      requires |runtimes| > 0
      ensures m in runtimes && forall i :: 0 <= i < |runtimes| ==> runtimes[i] <= m
    {
      Max(runtimes)
    }

    function RuntimeMin(): (m: real)
      reads this
      requires |runtimes| > 0
      ensures m in runtimes && forall i :: 0 <= i < |runtimes| ==> m <= runtimes[i]
    {
      Min(runtimes)
    }

    method RuntimeStdev(sqrt: real -> real) returns (r: real)
      requires IsSqrt(sqrt)
      ensures r >= 0.0
      ensures |runtimes| == 0 ==> r == 0.0
      ensures |runtimes| > 0 ==> r == sqrt(Variance(runtimes)) && (r == 0.0 <==> AllEqual(runtimes))
    {
      r := StdevDuration(runtimes, sqrt);
    }

    /** Largest throughput in bytes per second: the data size over the fastest sample. */
    function BpsMax(): (r: real)
      reads this
      requires |runtimes| > 0 && Min(runtimes) != 0.0
      ensures Positive(runtimes) ==>
        (forall i :: 0 <= i < |runtimes| ==> Rate(dataSize as real, runtimes[i]) <= r)
    {
      if Positive(runtimes) then RateBounds(dataSize as real, runtimes); Rate(dataSize as real, Min(runtimes))
      else Rate(dataSize as real, Min(runtimes))
    }

    /** Smallest throughput in bytes per second: the data size over the slowest sample. */
    function BpsMin(): (r: real)
      reads this
      requires |runtimes| > 0 && Max(runtimes) != 0.0
      ensures Positive(runtimes) ==>
        (forall i :: 0 <= i < |runtimes| ==> r <= Rate(dataSize as real, runtimes[i]))
    {
      if Positive(runtimes) then RateBounds(dataSize as real, runtimes); Rate(dataSize as real, Max(runtimes))
      else Rate(dataSize as real, Max(runtimes))
    }

    function BpsMean(): (r: real)
      reads this
      requires Mean(runtimes) != 0.0
      ensures |runtimes| > 0 && Positive(runtimes) ==>
        Rate(dataSize as real, Max(runtimes)) <= r <= Rate(dataSize as real, Min(runtimes))
    {
      if |runtimes| > 0 && Positive(runtimes) then
        MeanRateBetween(dataSize as real, runtimes); Rate(dataSize as real, Mean(runtimes))
      else Rate(dataSize as real, Mean(runtimes))
    }

    method BpsStdev(sqrt: real -> real) returns (r: real)
      requires IsSqrt(sqrt)
      requires |runtimes| > 0 && !AllEqual(runtimes)
      ensures sqrt(Variance(runtimes)) > 0.0
      ensures r == Rate(dataSize as real, sqrt(Variance(runtimes)))
    {
      var deviation := StdevDuration(runtimes, sqrt);
      r := Rate(dataSize as real, deviation);
    }

    /** Largest throughput in operations per second: the operation count over the fastest sample. */
    function OpsMax(): (r: real)
      reads this
      requires |runtimes| > 0 && Min(runtimes) != 0.0
      ensures Positive(runtimes) ==>
        (forall i :: 0 <= i < |runtimes| ==> Rate(numOperations as real, runtimes[i]) <= r)
    {
      if Positive(runtimes) then RateBounds(numOperations as real, runtimes); Rate(numOperations as real, Min(runtimes))
      else Rate(numOperations as real, Min(runtimes))
    }

    /** Smallest throughput in operations per second: the operation count over the slowest sample. */
    function OpsMin(): (r: real)
      reads this
      requires |runtimes| > 0 && Max(runtimes) != 0.0
      ensures Positive(runtimes) ==>
        (forall i :: 0 <= i < |runtimes| ==> r <= Rate(numOperations as real, runtimes[i]))
    {
      if Positive(runtimes) then RateBounds(numOperations as real, runtimes); Rate(numOperations as real, Max(runtimes))
      else Rate(numOperations as real, Max(runtimes))
    }

    function OpsMean(): (r: real)
      reads this
      requires Mean(runtimes) != 0.0
      ensures |runtimes| > 0 && Positive(runtimes) ==>
        Rate(numOperations as real, Max(runtimes)) <= r <= Rate(numOperations as real, Min(runtimes))
    {
      if |runtimes| > 0 && Positive(runtimes) then
        MeanRateBetween(numOperations as real, runtimes); Rate(numOperations as real, Mean(runtimes))
      else Rate(numOperations as real, Mean(runtimes))
    }

    method OpsStdev(sqrt: real -> real) returns (r: real)
      requires IsSqrt(sqrt)
      requires |runtimes| > 0 && !AllEqual(runtimes)
      ensures sqrt(Variance(runtimes)) > 0.0
      ensures r == Rate(numOperations as real, sqrt(Variance(runtimes)))
    {
      var deviation := StdevDuration(runtimes, sqrt);
      r := Rate(numOperations as real, deviation);
    }

    function Json(): (j: JsonRecord)
      reads this
      ensures j.iterations == |j.runtimes| == |runtimes|
      ensures j.name == name && j.dataSize == dataSize && j.runtimes == runtimes
    {
      JsonRecord(name, dataSize, |runtimes|, runtimes)
    }
  }

  /**
   * Over positive samples the throughput accessors are ordered: min <= mean
   * <= max, both in bytes and in operations per second.
   */
  lemma ThroughputOrder(b: BenchmarkResult)
    requires |b.runtimes| > 0 && Positive(b.runtimes)
    ensures Min(b.runtimes) > 0.0 && Mean(b.runtimes) > 0.0
    ensures b.BpsMin() <= b.BpsMean() <= b.BpsMax()
    ensures b.OpsMin() <= b.OpsMean() <= b.OpsMax()
  {
    MeanRateBetween(b.dataSize as real, b.runtimes);
    MeanRateBetween(b.numOperations as real, b.runtimes);
  }

  /** Two series that differ only in their operation count have the same JSON record. */
  lemma JsonOmitsNumOperations(a: BenchmarkResult, b: BenchmarkResult)
    requires a.name == b.name && a.dataSize == b.dataSize && a.runtimes == b.runtimes
    ensures a.Json() == b.Json()
  {
  }

  /** A series as the registry holds it at one moment: the object and its samples. */
  datatype Entry = Entry(series: BenchmarkResult, runtimes: seq<real>)

  /** The registry every suite derives from: benchmark name to series. */
  class AbstractBenchmark {
    var benchmarkResult: map<string, BenchmarkResult>

    /** The registry's contents at this moment, for relating two moments of a run. */
    ghost function State(): map<string, Entry>
      reads this, benchmarkResult.Values
    {
      map k | k in benchmarkResult :: Entry(benchmarkResult[k], benchmarkResult[k].runtimes)
    }

    /** Every series is stored under its own name, so no two keys share a series. */
    ghost predicate Valid()
      reads this
    {
      forall k :: k in benchmarkResult ==> benchmarkResult[k].name == k
    }

    constructor ()
      ensures benchmarkResult == map[] && Valid()
    {
      benchmarkResult := map[];
    }

    /** `reset`: delete every collected result. */
    method Reset()
      modifies this
      ensures benchmarkResult == map[] && Valid()
    {
      benchmarkResult := map[];
    }

    /**
     * `results() const`: the live map itself; the series it holds are the
     * registry's own objects and see every later `_add_result`.
     */
    function ResultsView(): (view: map<string, BenchmarkResult>)
      reads this
      ensures view.Keys == benchmarkResult.Keys
      ensures forall k :: k in view ==> view[k] == benchmarkResult[k]
    {
      benchmarkResult
    }

    /**
     * `results()` by value: a copy of the map holding a copy of every series,
     * so nothing done to the registry afterwards reaches it.
     */
    method Results() returns (snapshot: map<string, BenchmarkResult>)
      ensures snapshot.Keys == benchmarkResult.Keys
      ensures forall k :: k in snapshot ==>
        fresh(snapshot[k]) && snapshot[k].name == benchmarkResult[k].name
        && snapshot[k].dataSize == benchmarkResult[k].dataSize
        && snapshot[k].numOperations == benchmarkResult[k].numOperations
        && snapshot[k].runtimes == benchmarkResult[k].runtimes
    {
      snapshot := map[];
      var remaining := benchmarkResult.Keys;
      while remaining != {}
        invariant remaining <= benchmarkResult.Keys
        invariant snapshot.Keys == benchmarkResult.Keys - remaining
        invariant forall k :: k in snapshot ==>
          fresh(snapshot[k]) && snapshot[k].name == benchmarkResult[k].name
          && snapshot[k].dataSize == benchmarkResult[k].dataSize
          && snapshot[k].numOperations == benchmarkResult[k].numOperations
          && snapshot[k].runtimes == benchmarkResult[k].runtimes
        decreases remaining
      {
        var k :| k in remaining;
        var copy := new BenchmarkResult.Copy(benchmarkResult[k]);
        snapshot := snapshot[k := copy];
        remaining := remaining - {k};
      }
    }

    /**
     * `_register_benchmark`: a new name gets an empty series with the given
     * costs; an existing name keeps its series untouched (`std::map::insert`
     * does not overwrite) and nothing is reported.
     */
    method RegisterBenchmark(dataSize: nat, numOperations: nat, name: string)
      requires Valid()
      modifies this
      ensures Valid()
      ensures benchmarkResult.Keys == old(benchmarkResult.Keys) + {name}
      ensures forall k :: k in old(benchmarkResult) ==> benchmarkResult[k] == old(benchmarkResult[k])
      ensures name !in old(benchmarkResult) ==>
        fresh(benchmarkResult[name]) && benchmarkResult[name].runtimes == []
        && benchmarkResult[name].dataSize == dataSize && benchmarkResult[name].numOperations == numOperations
    {
      if name !in benchmarkResult {
        var series := new BenchmarkResult(name, dataSize, numOperations);
        benchmarkResult := benchmarkResult[name := series];
      }
    }

    /**
     * `_add_result`: append one sample to a registered series; an
     * unregistered name throws and changes nothing. No other series and no
     * key changes either way.
     */
    method AddResult(key: string, value: real) returns (outcome: Outcome)
      requires Valid()
      modifies if key in benchmarkResult then {benchmarkResult[key]} else {}
      ensures benchmarkResult == old(benchmarkResult)
      ensures outcome == (if key in benchmarkResult then Recorded else RuntimeError(UnregisteredMessage))
      ensures key in benchmarkResult ==> benchmarkResult[key].runtimes == old(benchmarkResult[key].runtimes) + [value]
      ensures forall k :: k in benchmarkResult && k != key ==>
        benchmarkResult[k].runtimes == old(benchmarkResult[k].runtimes)
    {
      if key !in benchmarkResult {
        return RuntimeError(UnregisteredMessage);
      }
      benchmarkResult[key].AddRuntime(value);
      outcome := Recorded;
    }
  }

  /**
   * The two forms of `results()` side by side: after a snapshot is taken,
   * one more sample is recorded and the registry is reset. The snapshot
   * still holds the old samples, while the view taken before the update
   * shows the new sample in the registry's own series.
   */
  method SnapshotAndView(bench: AbstractBenchmark, key: string, value: real)
    returns (snapshot: map<string, BenchmarkResult>, view: map<string, BenchmarkResult>)
    requires bench.Valid() && key in bench.benchmarkResult
    modifies bench, bench.benchmarkResult[key]
    ensures bench.benchmarkResult == map[]
    ensures snapshot.Keys == view.Keys == old(bench.benchmarkResult.Keys)
    ensures forall k :: k in snapshot ==> snapshot[k].runtimes == old(bench.benchmarkResult[k].runtimes)
    ensures view[key].runtimes == old(bench.benchmarkResult[key].runtimes) + [value]
  {
    snapshot := bench.Results();
    view := bench.ResultsView();
    var outcome := bench.AddResult(key, value);
    bench.Reset();
  }
}
