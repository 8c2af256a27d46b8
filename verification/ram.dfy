/**
 * The RAM suite (`taskbench::ram::Benchmark`) as this revision implements
 * it: `run_read` times a fixed number of iterations of a sequential and a
 * random read over four workers and records into the older registry;
 * `run_write` and `run_read_write` are empty.
 *
 * The bytes the workers read are not modelled. Their threads become a
 * sequential pass, inside the timing window, over the piece each is handed
 * (the pieces are disjoint), so what remains is how the buffer and the
 * linked lists are split, that the pieces cover what they should, and
 * which clock readings bound each sample.
 */
module Ram {
  import opened Timing
  import opened LegacyRegistry
  import Registry
  import Synthetic

  /** The worker count is a constant, not the hardware's. */
  const NumThreads: nat := 4

  const SequentialRead: string := "sequential read"
  const RandomRead: string := "random read"

  /** Largest value of the 32-bit `int` that holds the running offset `pos`. */
  const IntMax: int := 0x7FFF_FFFF

  /** Bytes each sequential-read worker covers: `S_1_GiB / num_threads`. */
  function Chunk(): nat
  {
    Registry.S1GiB / NumThreads
  }

  /** The piece of the buffer one worker reads: `length` bytes from `offset`. */
  datatype Range = Range(offset: int, length: int)

  /** Worker `j` of `n` reads `[j * q, (j + 1) * q)`. */
  function Ranges(q: nat, n: nat): (r: seq<Range>)
    ensures |r| == n
  {
    seq(n, j => Range(j * q, q))
  }

  /**
   * The ranges start at 0, each begins where the one before it ends, so
   * they are pairwise disjoint, and together they cover `[0, n * q)`.
   */
  lemma RangesTile(q: nat, n: nat)
    requires n > 0
    ensures Ranges(q, n)[0].offset == 0
    ensures forall j :: 0 <= j < n - 1 ==> Ranges(q, n)[j].offset + q == Ranges(q, n)[j + 1].offset
    ensures forall i, j :: 0 <= i < j < n ==> Ranges(q, n)[i].offset + q <= Ranges(q, n)[j].offset
    ensures Ranges(q, n)[n - 1].offset + q == n * q
  {
    var r := Ranges(q, n);
    forall i, j | 0 <= i < j < n
      ensures r[i].offset + q <= r[j].offset
    {
      assert r[i].offset + q == (i + 1) * q;
      Synthetic.MulMonotoneRight(q, i + 1, j);
    }
    assert r[n - 1].offset + q == (n - 1) * q + q;
  }

  /** The four ranges cover the whole 1 GiB buffer: 2^30 is divisible by 4. */
  lemma SequentialCoversBuffer()
    ensures NumThreads * Chunk() == Registry.S1GiB
    ensures Ranges(Chunk(), NumThreads)[NumThreads - 1].offset + Chunk() == Registry.S1GiB
  {
    RangesTile(Chunk(), NumThreads);
  }

  /**
   * Hand out the sequential ranges as the spawning loop does: each worker
   * starts at the running offset `pos`, which then advances by `q`. The
   * offset never leaves the range of `int`.
   */
  method SequentialRanges() returns (ranges: seq<Range>)
    ensures ranges == Ranges(Chunk(), NumThreads)
  {
    var q := Chunk();
    var pos := 0;
    ranges := [];
    for t := 0 to NumThreads
      invariant pos == t * q
      invariant ranges == Ranges(q, t)
    {
      ranges := ranges + [Range(pos, q)];
      assert pos + q <= IntMax;
      pos := pos + q;
    }
  }

  /**
   * Build the random-read lists: `nodes` holds one list per worker, each
   * of `linked_list_size / num_threads` nodes, where the list size is the
   * number of nodes of `nodeSize` bytes in 1 GiB.
   */
  method BuildLists(nodeSize: nat) returns (lengths: seq<nat>, x: nat)
    requires nodeSize > 0
    ensures |lengths| == NumThreads
    ensures forall j :: 0 <= j < NumThreads ==> lengths[j] == x
    ensures NumThreads * x <= Registry.S1GiB / nodeSize < NumThreads * (x + 1)
  {
    var linkedListSize := Registry.S1GiB / nodeSize;
    x := linkedListSize / NumThreads;
    lengths := [];
    for t := 0 to NumThreads
      invariant |lengths| == t
      invariant forall j :: 0 <= j < t ==> lengths[j] == linkedListSize / NumThreads
    {
      lengths := lengths + [linkedListSize / NumThreads];
    }
  }

  /**
   * What one iteration hands its workers: a sweep of the buffer, each
   * worker reading one range of `SequentialRanges`, or a walk in which
   * worker `j` visits `steps` nodes of its own list `j`.
   */
  datatype Work = Sweep | Walk(lengths: seq<nat>, steps: nat)

  /** The series a kind of work is recorded under. */
  function Name(work: Work): string
  {
    match work
    case Sweep => SequentialRead
    case Walk(_, _) => RandomRead
  }

  /** Every worker of a walk has a list of its own, at least `steps` nodes long. */
  predicate Fits(work: Work)
  {
    work.Walk? ==> |work.lengths| == NumThreads && forall j :: 0 <= j < NumThreads ==> work.steps <= work.lengths[j]
  }

  /**
   * The workers of one iteration, one after the other: the threads are
   * joined before the timer stops and their pieces are disjoint, so the
   * order does not matter. A sweep worker reads its range, which starts
   * where the previous worker's ended and lies inside the buffer; a walk
   * worker visits `steps` nodes of its own list without running off its
   * end. `amount` is what they read together: the whole 1 GiB buffer, or
   * `steps` nodes per worker.
   */
  method RunWorkers(work: Work) returns (amount: nat)
    requires Fits(work)
    ensures work.Sweep? ==> amount == Registry.S1GiB
    ensures work.Walk? ==> amount == NumThreads * work.steps
  {
    amount := 0;
    match work
    case Sweep =>
      var ranges := SequentialRanges();
      for j := 0 to NumThreads
        invariant amount == j * Chunk()
      {
        assert ranges[j].offset == amount && ranges[j].offset + ranges[j].length <= Registry.S1GiB;
        amount := amount + ranges[j].length;
      }
    case Walk(lengths, steps) =>
      for j := 0 to NumThreads
        invariant amount == j * steps
      {
        assert steps <= lengths[j];
        amount := amount + steps;
      }
  }

  /**
   * The samples of `n` iterations whose timer is started at reading
   * `first + 2i` and stopped at reading `first + 2i + 1`.
   */
  function Windows(reading: nat -> int, first: nat, n: nat): seq<real>
  {
    seq(n, i requires 0 <= i => Seconds(reading(first + 2 * i + 1) - reading(first + 2 * i)))
  }

  /** One more iteration adds its window at the end and keeps the earlier ones. */
  lemma WindowsStep(reading: nat -> int, first: nat, i: nat)
    ensures Windows(reading, first, i + 1)
      == Windows(reading, first, i) + [Seconds(reading(first + 2 * i + 1) - reading(first + 2 * i))]
  {
    var w, v := Windows(reading, first, i + 1), Windows(reading, first, i);
    forall j | 0 <= j < i
      ensures w[j] == v[j]
    {
    }
  }

  /** Each window closes after it opens, so every sample is positive. */
  lemma WindowsPositive(reading: nat -> int, first: nat, n: nat)
    requires StrictlyIncreasing(reading)
    ensures forall i :: 0 <= i < n ==> Windows(reading, first, n)[i] > 0.0
  {
    forall i | 0 <= i < n
      ensures Windows(reading, first, n)[i] > 0.0
    {
      assert Precedes(reading, first + 2 * i, first + 2 * i + 1);
    }
  }

  /**
   * What `run_read(iterations)` leaves in the registry `m`: the sequential
   * samples, then the random ones. The two series are added to the
   * registry's names exactly when there is at least one iteration.
   */
  function AfterRead(m: map<string, seq<real>>, reading: nat -> int, first: nat, iterations: nat)
    : (r: map<string, seq<real>>)
    ensures r.Keys == if iterations == 0 then m.Keys else m.Keys + {SequentialRead, RandomRead}
  {
    var m1 := RecordAll(m, SequentialRead, Windows(reading, first, iterations));
    RecordAllAppends(m, SequentialRead, Windows(reading, first, iterations));
    RecordAllAppends(m1, RandomRead, Windows(reading, first + 2 * iterations, iterations));
    RecordAll(m1, RandomRead, Windows(reading, first + 2 * iterations, iterations))
  }

  /**
   * `run_read(n)` adds exactly `n` samples to each of its two series, in
   * the order they were taken (the random ones timed after all the
   * sequential ones), and changes no other series; starting from
   * an empty registry each holds exactly `n`.
   */
  lemma ReadRecordsIterations(m: map<string, seq<real>>, reading: nat -> int, first: nat, n: nat)
    ensures |Series(AfterRead(m, reading, first, n), SequentialRead)| == |Series(m, SequentialRead)| + n
    ensures |Series(AfterRead(m, reading, first, n), RandomRead)| == |Series(m, RandomRead)| + n
    ensures Series(AfterRead(m, reading, first, n), SequentialRead)
      == Series(m, SequentialRead) + Windows(reading, first, n)
    ensures Series(AfterRead(m, reading, first, n), RandomRead)
      == Series(m, RandomRead) + Windows(reading, first + 2 * n, n)
    ensures forall k :: k != SequentialRead && k != RandomRead ==> Series(AfterRead(m, reading, first, n), k) == Series(m, k)
    ensures m == map[] ==> |Series(AfterRead(m, reading, first, n), SequentialRead)| == n
  {
    var sequential, random := Windows(reading, first, n), Windows(reading, first + 2 * n, n);
    var m1 := RecordAll(m, SequentialRead, sequential);
    var after := AfterRead(m, reading, first, n);
    assert after == RecordAll(m1, RandomRead, random);
    RecordAllAppends(m, SequentialRead, sequential);
    RecordAllAppends(m1, RandomRead, random);
    RecordAllOtherKey(m1, RandomRead, random, SequentialRead);
    RecordAllOtherKey(m, SequentialRead, sequential, RandomRead);
    assert Series(after, RandomRead) == Series(m1, RandomRead) + random;
    forall k | k != SequentialRead && k != RandomRead
      ensures Series(after, k) == Series(m, k)
    {
      RecordAllOtherKey(m, SequentialRead, sequential, k);
      RecordAllOtherKey(m1, RandomRead, random, k);
    }
  }

  class Benchmark {
    /** The registry this suite inherits from `utils::AbstractBenchmark`. */
    const registry: AbstractBenchmark
    /** `sizeof(utils::Node<char>)`, which depends on the platform. */
    const nodeSize: nat

    constructor (nodeSize: nat)
      requires nodeSize > 0
      ensures fresh(registry) && registry.benchmarkResult == map[] && this.nodeSize == nodeSize
    {
      registry := new AbstractBenchmark();
      this.nodeSize := nodeSize;
    }

    /**
     * One timed iteration, the `i`-th of a loop that started at clock
     * reading `first` on the registry `m`: start the timer, hand the workers
     * their pieces and wait for all of them, stop the timer and record the
     * sample under the work's name. The clock is read twice; `amount` is
     * what the workers read inside the window.
     */
    method TimedIteration(work: Work, clock: Clock, ghost m: map<string, seq<real>>, ghost first: nat, ghost i: nat)
      returns (amount: nat)
      requires Fits(work)
      requires StrictlyIncreasing(clock.reading) && clock.ticks == first + 2 * i
      requires registry.benchmarkResult == RecordAll(m, Name(work), Windows(clock.reading, first, i))
      modifies registry, clock
      ensures work.Sweep? ==> amount == Registry.S1GiB
      ensures work.Walk? ==> amount == NumThreads * work.steps
      ensures clock.ticks == first + 2 * (i + 1)
      ensures registry.benchmarkResult == RecordAll(m, Name(work), Windows(clock.reading, first, i + 1))
    {
      ghost var reading := clock.reading;
      ghost var before := Windows(reading, first, i);
      var timer := new Timer();
      var now := clock.Now();
      timer.Start(now);
      amount := RunWorkers(work);
      assert Precedes(reading, first + 2 * i, first + 2 * i + 1);
      now := clock.Now();
      var runtime := timer.Stop(now);
      assert runtime == Seconds(reading(first + 2 * i + 1) - reading(first + 2 * i));
      registry.AddResult(Name(work), runtime);
      WindowsStep(reading, first, i);
      RecordAllStep(m, Name(work), before, runtime);
    }

    /**
     * `iterations` timed iterations of `work`, recorded under its name; the
     * clock is at reading `first` when the loop starts.
     */
    method TimedLoop(work: Work, iterations: nat, clock: Clock, ghost first: nat)
      requires Fits(work)
      requires StrictlyIncreasing(clock.reading) && clock.ticks == first
      modifies registry, clock
      ensures clock.ticks == first + 2 * iterations
      ensures registry.benchmarkResult
        == RecordAll(old(registry.benchmarkResult), Name(work), Windows(clock.reading, first, iterations))
    {
      ghost var m := registry.benchmarkResult;
      for i := 0 to iterations
        invariant clock.ticks == first + 2 * i
        invariant registry.benchmarkResult == RecordAll(m, Name(work), Windows(clock.reading, first, i))
      {
        var amount := TimedIteration(work, clock, m, first, i);
      }
    }

    /**
     * `run_read(iterations)`: the sequential read, then the random read,
     * each timed `iterations` times. The lists are built once, before
     * either loop; each sweep iteration computes the ranges afresh, and
     * each walk iteration hands worker `j` its own list `j` and `x`.
     */
    method RunRead(iterations: nat, clock: Clock)
      requires StrictlyIncreasing(clock.reading) && nodeSize > 0
      modifies registry, clock
      ensures clock.ticks == old(clock.ticks) + 4 * iterations
      ensures registry.benchmarkResult
        == AfterRead(old(registry.benchmarkResult), clock.reading, old(clock.ticks), iterations)
    {
      ghost var t0 := clock.ticks;
      var lengths, x := BuildLists(nodeSize);
      TimedLoop(Sweep, iterations, clock, t0);
      TimedLoop(Walk(lengths, x), iterations, clock, t0 + 2 * iterations);
    }

    /** `run_write` has an empty body. */
    method RunWrite(iterations: nat)
      ensures registry.benchmarkResult == old(registry.benchmarkResult)
    {
    }

    /** `run_read_write` has an empty body. */
    method RunReadWrite(iterations: nat)
      ensures registry.benchmarkResult == old(registry.benchmarkResult)
    {
    }

    /** `run_all(iterations)`: read, write, then read-write; only the read records anything. */
    method RunAll(iterations: nat, clock: Clock)
      requires StrictlyIncreasing(clock.reading) && nodeSize > 0
      modifies registry, clock
      ensures registry.benchmarkResult
        == AfterRead(old(registry.benchmarkResult), clock.reading, old(clock.ticks), iterations)
    {
      RunRead(iterations, clock);
      RunWrite(iterations);
      RunReadWrite(iterations);
    }
  }
}
