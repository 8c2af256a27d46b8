/**
 * The older registry, `taskbench::utils::AbstractBenchmark`, which the RAM
 * suite of this revision still records into. A name maps straight to its
 * series of durations (`utils::BenchmarkResult` is a plain vector), there is
 * no registration step, and recording under an unknown name creates the
 * series instead of failing.
 */
module LegacyRegistry {

  /** The samples stored under `key`, or none when `key` is absent. */
  function Series(m: map<string, seq<real>>, key: string): seq<real>
  {
    if key in m then m[key] else []
  }

  /**
   * The map after `_add_result(key, value)`: the series under `key`, created
   * empty when missing, gains `value` at its end; no other key changes.
   */
  function Record(m: map<string, seq<real>>, key: string, value: real): (r: map<string, seq<real>>)
    ensures r.Keys == m.Keys + {key}
    ensures r[key] == Series(m, key) + [value]
    ensures forall k :: k in m && k != key ==> r[k] == m[k]
  {
    m[key := Series(m, key) + [value]]
  }

  /**
   * The map after recording every value of `values` under `key`, in order,
   * in closed form: `RecordAllStep` shows it is `Record` applied once per value.
   */
  function RecordAll(m: map<string, seq<real>>, key: string, values: seq<real>): map<string, seq<real>>
  {
    if |values| == 0 then m else m[key := Series(m, key) + values]
  }

  /** Recording one more value is one more `Record`. */
  lemma RecordAllStep(m: map<string, seq<real>>, key: string, values: seq<real>, value: real)
    ensures RecordAll(m, key, values + [value]) == Record(RecordAll(m, key, values), key, value)
  {
    if |values| > 0 {
      assert Series(RecordAll(m, key, values), key) == Series(m, key) + values;
      assert Series(m, key) + (values + [value]) == (Series(m, key) + values) + [value];
    } else {
      assert values + [value] == [value];
    }
  }

  /** `Record` applied to each value of `values` in turn, as a loop of `_add_result` calls does. */
  function RecordEach(m: map<string, seq<real>>, key: string, values: seq<real>): map<string, seq<real>>
  {
    if |values| == 0 then m
    else Record(RecordEach(m, key, values[..|values| - 1]), key, values[|values| - 1])
  }

  /** The closed form agrees with recording one value at a time. */
  lemma {:induction false} RecordEachIsRecordAll(m: map<string, seq<real>>, key: string, values: seq<real>)
    ensures RecordEach(m, key, values) == RecordAll(m, key, values)
  {
    if |values| > 0 {
      var init, last := values[..|values| - 1], values[|values| - 1];
      assert values == init + [last];
      RecordEachIsRecordAll(m, key, init);
      RecordAllStep(m, key, init, last);
    }
  }

  /**
   * Recording a run of values appends exactly that run, in order, to the
   * series under `key` and touches nothing else; the key is created by the
   * first value and not before.
   */
  lemma RecordAllAppends(m: map<string, seq<real>>, key: string, values: seq<real>)
    ensures RecordAll(m, key, values).Keys == if |values| == 0 then m.Keys else m.Keys + {key}
    ensures Series(RecordAll(m, key, values), key) == Series(m, key) + values
    ensures forall k :: k in m && k != key ==> RecordAll(m, key, values)[k] == m[k]
  {
  }

  /** Recording under one key commutes with reading another. */
  lemma RecordAllOtherKey(m: map<string, seq<real>>, key: string, values: seq<real>, other: string)
    requires other != key
    ensures Series(RecordAll(m, key, values), other) == Series(m, other)
  {
    RecordAllAppends(m, key, values);
  }

  class AbstractBenchmark {
    var benchmarkResult: map<string, seq<real>>

    constructor ()
      ensures benchmarkResult == map[]
    {
      benchmarkResult := map[];
    }

    /** `reset`: forget every series. */
    method Reset()
      modifies this
      ensures benchmarkResult == map[]
    {
      benchmarkResult := map[];
    }

    /**
     * The by-value `results()`. The series are values, so the copy is
     * independent of every later change to the registry.
     */
    method Results() returns (snapshot: map<string, seq<real>>)
      ensures snapshot == benchmarkResult
    {
      snapshot := benchmarkResult;
    }

    /** The const `results()`: the live map itself. */
    function ResultsView(): map<string, seq<real>>
      reads this
    {
      benchmarkResult
    }

    /** `_add_result`: never fails; an unknown key gets a new series holding just `value`. */
    method AddResult(key: string, value: real)
      modifies this
      ensures benchmarkResult == Record(old(benchmarkResult), key, value)
    {
      if key !in benchmarkResult {
        benchmarkResult := benchmarkResult[key := []];
      }
      benchmarkResult := benchmarkResult[key := benchmarkResult[key] + [value]];
    }
  }

  /**
   * A snapshot taken before a recording and a reset still holds what it
   * held; the registry itself is empty afterwards.
   */
  method SnapshotSurvivesReset(bench: AbstractBenchmark, key: string, value: real)
    returns (snapshot: map<string, seq<real>>)
    modifies bench
    ensures snapshot == old(bench.benchmarkResult)
    ensures bench.benchmarkResult == map[]
  {
    snapshot := bench.Results();
    bench.AddResult(key, value);
    bench.Reset();
  }
}
