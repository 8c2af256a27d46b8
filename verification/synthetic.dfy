/**
 * The CPU synthetic kernels of `taskbench::cpu::synthetic`, instantiated at
 * an integer type `T`. Each kernel runs `num_operations_div_100` iterations
 * of a body of 100 arithmetic statements on volatile accumulators.
 *
 * The body is ten blocks of ten statements. Statement `k` of every block
 * uses operand `v_k`; which accumulator it updates depends on the block
 * (`AddSubTarget`, `MulTarget`). The ten operands are the sequence `v`, and
 * the accumulators `r0, r1, ...` the sequence `r`. The model walks the
 * statements block by block and position by position, in the source's order.
 *
 * Integers are unbounded here: the model shows where the kernels stay in
 * range (`div`) and what they compute, not how `T` would overflow.
 */
module Synthetic {

  /** The ten operands `v0, ..., v9`. */
  predicate Operands(v: seq<int>)
  {
    |v| == 10
  }

  // ---------------------------------------------------------------------
  // add_sub
  // ---------------------------------------------------------------------

  /**
   * The accumulator statement `k` of block `b` of `add_sub` updates:
   * `r_{(k + b) mod 10}` (block 0 is `r0 += v0; r1 -= v1; ...`, block 1
   * starts with `r1 += v0` and ends with `r0 -= v9`, and so on).
   */
  function AddSubTarget(b: nat, k: nat): (t: nat)
    requires b < 10 && k < 10
    ensures t < 10 && t == (k + b) % 10
  {
    if k + b < 10 then k + b else k + b - 10
  }

  /** The position within block `b` of the one statement that updates `r_j`. */
  function Back(j: nat, b: nat): (k: nat)
    requires j < 10 && b < 10
    ensures k < 10 && AddSubTarget(b, k) == j
    ensures forall k' :: 0 <= k' < 10 && AddSubTarget(b, k') == j ==> k' == k
  {
    if j >= b then j - b else j + 10 - b
  }

  /** Statement `k` adds `v_k` when `k` is even and subtracts it when `k` is odd. */
  function Signed(v: seq<int>, k: nat): int
    requires Operands(v) && k < 10
  {
    if k % 2 == 0 then v[k] else -v[k]
  }

  /** `v0 - v1 + v2 - ... - v9`, summed up to `n` terms. */
  function SignedSum(v: seq<int>, n: nat): int
    requires Operands(v) && n <= 10
  {
    if n == 0 then 0 else SignedSum(v, n - 1) + Signed(v, n - 1)
  }

  /** What every accumulator gains in one iteration of `add_sub`. */
  function Drift(v: seq<int>): int
    requires Operands(v)
  {
    SignedSum(v, 10)
  }

  function Pred(j: nat): nat
    requires j < 10
  {
    if j == 0 then 9 else j - 1
  }

  /**
   * What `r_j` has received from blocks `0 .. b-1` of one iteration: block
   * `b'` updates it with operand `j - b' (mod 10)`, so these are the signed
   * operands `j, j-1, ...`, going backwards round the ten.
   */
  function Received(v: seq<int>, j: nat, b: nat): int
    requires Operands(v) && j < 10 && b <= 10
    decreases b
  {
    if b == 0 then 0 else Signed(v, j) + Received(v, Pred(j), b - 1)
  }

  /** Block `b` adds its one statement for `r_j` at the end. */
  lemma {:induction false} ReceivedStep(v: seq<int>, j: nat, b: nat)
    requires Operands(v) && j < 10 && b < 10
    ensures Received(v, j, b + 1) == Received(v, j, b) + Signed(v, Back(j, b))
    decreases b
  {
    if b > 0 {
      ReceivedStep(v, Pred(j), b - 1);
      assert Back(Pred(j), b - 1) == Back(j, b);
    }
  }

  /** Without wrapping round, `r_j` has received exactly `v_0 .. v_j`. */
  lemma {:induction false} ReceivedPrefix(v: seq<int>, j: nat)
    requires Operands(v) && j < 10
    ensures Received(v, j, j + 1) == SignedSum(v, j + 1)
  {
    if j > 0 {
      ReceivedPrefix(v, j - 1);
    }
  }

  /**
   * After a whole iteration every accumulator has received each operand
   * exactly once, with its sign: all ten gain the same `Drift(v)`.
   */
  lemma {:induction false} ReceivedAll(v: seq<int>, j: nat)
    requires Operands(v) && j < 10
    ensures Received(v, j, 10) == Drift(v)
    decreases 10 - j
  {
    if j == 9 {
      ReceivedPrefix(v, 9);
    } else {
      ReceivedAll(v, j + 1);
      ReceivedStep(v, j, 9);
      assert Back(j, 9) == j + 1;
    }
  }

  /**
   * `add_sub(n, v0, ..., v9)`. After `n` iterations every accumulator holds
   * `n * Drift(v)`, so the returned `r0 + ... + r4 - r5 - ... - r9` is 0
   * whatever the operands; `ops` counts the 100 updates of each iteration.
   */
  method AddSub(n: nat, v: seq<int>) returns (result: int, r: seq<int>, ghost ops: nat)
    requires Operands(v)
    ensures |r| == 10 && forall j :: 0 <= j < 10 ==> r[j] == n * Drift(v)
    ensures ops == 100 * n
    ensures result == 0
  {
    r := [0, 0, 0, 0, 0, 0, 0, 0, 0, 0];
    ghost var base := 0;
    ops := 0;
    for i := 0 to n
      invariant |r| == 10 && base == i * Drift(v) && ops == 100 * i
      invariant forall j :: 0 <= j < 10 ==> r[j] == base
    {
      for b := 0 to 10
        invariant |r| == 10 && ops == 100 * i + 10 * b
        invariant forall j :: 0 <= j < 10 ==> r[j] == base + Received(v, j, b)
      {
        for k := 0 to 10
          invariant |r| == 10 && ops == 100 * i + 10 * b + k
          invariant forall j :: 0 <= j < 10 ==>
            r[j] == base + Received(v, j, b) + (if Back(j, b) < k then Signed(v, Back(j, b)) else 0)
        {
          var t := AddSubTarget(b, k);
          if k % 2 == 0 {
            r := r[t := r[t] + v[k]];
          } else {
            r := r[t := r[t] - v[k]];
          }
          ops := ops + 1;
        }
        forall j | 0 <= j < 10
          ensures r[j] == base + Received(v, j, b + 1)
        {
          ReceivedStep(v, j, b);
        }
      }
      forall j | 0 <= j < 10
        ensures r[j] == base + Drift(v)
      {
        ReceivedAll(v, j);
      }
      base := base + Drift(v);
    }
    result := r[0] + r[1] + r[2] + r[3] + r[4] - r[5] - r[6] - r[7] - r[8] - r[9];
  }

  // ---------------------------------------------------------------------
  // The schedule shared by mul and div
  // ---------------------------------------------------------------------

  /** `x mod 5` for the sums `k + b < 20` that index the schedule. */
  function Wrap5(x: nat): (y: nat)
    requires x < 20
    ensures y < 5 && y == x % 5
  {
    if x < 5 then x else if x < 10 then x - 5 else if x < 15 then x - 10 else x - 15
  }

  /**
   * The accumulator statement `k` of block `b` of `mul` (and of `div`)
   * updates. Block `b` runs round `r0 .. r4` twice starting at
   * `r_{b mod 5}`, except block 6, which is `r0, r1, r2, r3, r0, r1, r2,
   * r3, r4, r0`.
   */
  function MulTarget(b: nat, k: nat): (t: nat)
    requires b < 10 && k < 10
    ensures t < 5
  {
    if b != 6 then Wrap5(k + b)
    else if k < 4 then k
    else if k < 8 then k - 4
    else if k == 8 then 4
    else 0
  }

  /** How many of the first `k` statements of block `b` update `r_j`. */
  function Hits(b: nat, j: nat, k: nat): nat
    requires b < 10 && k <= 10
  {
    if k == 0 then 0 else Hits(b, j, k - 1) + (if MulTarget(b, k - 1) == j then 1 else 0)
  }

  /** Every block but block 6 runs round the five accumulators twice. */
  lemma HitsRotating(b: nat, j: nat)
    requires b < 10 && b != 6 && j < 5
    ensures Hits(b, j, 10) == 2
  {
    assert Hits(b, j, 1) == Hits(b, j, 0) + (if Wrap5(b + 0) == j then 1 else 0);
    assert Hits(b, j, 2) == Hits(b, j, 1) + (if Wrap5(b + 1) == j then 1 else 0);
    assert Hits(b, j, 3) == Hits(b, j, 2) + (if Wrap5(b + 2) == j then 1 else 0);
    assert Hits(b, j, 4) == Hits(b, j, 3) + (if Wrap5(b + 3) == j then 1 else 0);
    assert Hits(b, j, 5) == Hits(b, j, 4) + (if Wrap5(b + 4) == j then 1 else 0);
    assert Hits(b, j, 6) == Hits(b, j, 5) + (if Wrap5(b + 5) == j then 1 else 0);
    assert Hits(b, j, 7) == Hits(b, j, 6) + (if Wrap5(b + 6) == j then 1 else 0);
    assert Hits(b, j, 8) == Hits(b, j, 7) + (if Wrap5(b + 7) == j then 1 else 0);
    assert Hits(b, j, 9) == Hits(b, j, 8) + (if Wrap5(b + 8) == j then 1 else 0);
    assert Hits(b, j, 10) == Hits(b, j, 9) + (if Wrap5(b + 9) == j then 1 else 0);
  }

  /** Block 6 updates `r0` three times and `r4` once. */
  lemma HitsBlockSix(j: nat)
    requires j < 5
    ensures Hits(6, j, 10) == 2 + (if j == 0 then 1 else 0) - (if j == 4 then 1 else 0)
  {
    assert Hits(6, j, 1) == Hits(6, j, 0) + (if MulTarget(6, 0) == j then 1 else 0);
    assert Hits(6, j, 2) == Hits(6, j, 1) + (if MulTarget(6, 1) == j then 1 else 0);
    assert Hits(6, j, 3) == Hits(6, j, 2) + (if MulTarget(6, 2) == j then 1 else 0);
    assert Hits(6, j, 4) == Hits(6, j, 3) + (if MulTarget(6, 3) == j then 1 else 0);
    assert Hits(6, j, 5) == Hits(6, j, 4) + (if MulTarget(6, 4) == j then 1 else 0);
    assert Hits(6, j, 6) == Hits(6, j, 5) + (if MulTarget(6, 5) == j then 1 else 0);
    assert Hits(6, j, 7) == Hits(6, j, 6) + (if MulTarget(6, 6) == j then 1 else 0);
    assert Hits(6, j, 8) == Hits(6, j, 7) + (if MulTarget(6, 7) == j then 1 else 0);
    assert Hits(6, j, 9) == Hits(6, j, 8) + (if MulTarget(6, 8) == j then 1 else 0);
    assert Hits(6, j, 10) == Hits(6, j, 9) + (if MulTarget(6, 9) == j then 1 else 0);
  }

  /** Updates of `r_j` per block. */
  lemma HitsPerBlock(b: nat, j: nat)
    requires b < 10 && j < 5
    ensures Hits(b, j, 10) == 2 + (if b == 6 && j == 0 then 1 else 0) - (if b == 6 && j == 4 then 1 else 0)
  {
    if b == 6 {
      HitsBlockSix(j);
    } else {
      HitsRotating(b, j);
    }
  }

  /** How many statements of blocks `0 .. b-1` update `r_j`. */
  function Updates(j: nat, b: nat): nat
    requires b <= 10
  {
    if b == 0 then 0 else Updates(j, b - 1) + Hits(b - 1, j, 10)
  }

  /** Updates of `r_j` in blocks `0 .. b-1`: two per block, one more or fewer once block 6 is past. */
  lemma {:induction false} UpdatesUpTo(j: nat, b: nat)
    requires j < 5 && b <= 10
    ensures Updates(j, b) == 2 * b + (if b > 6 && j == 0 then 1 else 0) - (if b > 6 && j == 4 then 1 else 0)
  {
    if b > 0 {
      UpdatesUpTo(j, b - 1);
      HitsPerBlock(b - 1, j);
    }
  }

  /**
   * One iteration of `mul` (or `div`) updates `r0 .. r4` 21, 20, 20, 20 and
   * 19 times: 100 updates in all.
   */
  lemma UpdatesPerIteration(j: nat)
    requires j < 5
    ensures j == 0 ==> Updates(j, 10) == 21
    ensures 1 <= j <= 3 ==> Updates(j, 10) == 20
    ensures j == 4 ==> Updates(j, 10) == 19
  {
    UpdatesUpTo(j, 10);
  }

  // ---------------------------------------------------------------------
  // mul
  // ---------------------------------------------------------------------

  /** The reset at the top of each `mul` iteration: above `threshold` means back to 1. */
  function ResetAbove(x: int, threshold: int): (y: int)
    ensures y <= threshold || y == 1
    ensures y == x || (x > threshold && y == 1)
  {
    if x > threshold then 1 else x
  }

  /** `x` after the first `k` statements of block `b` that update `r_j`. */
  function MulBlock(x: int, v: seq<int>, j: nat, b: nat, k: nat): int
    requires Operands(v) && b < 10 && k <= 10
  {
    if k == 0 then x
    else
      var y := MulBlock(x, v, j, b, k - 1);
      if MulTarget(b, k - 1) == j then y * v[k - 1] else y
  }

  /** `x` after the statements of blocks `0 .. b-1` that update `r_j`. */
  function MulBlocks(x: int, v: seq<int>, j: nat, b: nat): int
    requires Operands(v) && b <= 10
  {
    if b == 0 then x else MulBlock(MulBlocks(x, v, j, b - 1), v, j, b - 1, 10)
  }

  /** The product of the operands one iteration multiplies `r_j` by. */
  function Factor(v: seq<int>, j: nat): int
    requires Operands(v)
  {
    MulBlocks(1, v, j, 10)
  }

  /** The accumulators after one iteration of `mul` that starts from `r`. */
  function MulIteration(r: seq<int>, v: seq<int>, threshold: int): (r': seq<int>)
    requires Operands(v) && |r| == 5
    ensures |r'| == 5
  {
    seq(5, j requires 0 <= j < 5 => MulBlocks(ResetAbove(r[j], threshold), v, j, 10))
  }

  /** The accumulators after `n` iterations of `mul`; they start at 1. */
  function MulRun(n: nat, v: seq<int>, threshold: int): (r: seq<int>)
    requires Operands(v)
    ensures |r| == 5
  {
    if n == 0 then [1, 1, 1, 1, 1] else MulIteration(MulRun(n - 1, v, threshold), v, threshold)
  }

  lemma MulAssociates(a: int, b: int, c: int)
    ensures (a * b) * c == a * (b * c)
  {
  }

  /** Statement by statement, a block multiplies by the product of its operands for `r_j`. */
  lemma {:induction false} MulBlockScales(x: int, v: seq<int>, j: nat, b: nat, k: nat)
    requires Operands(v) && b < 10 && k <= 10
    ensures MulBlock(x, v, j, b, k) == x * MulBlock(1, v, j, b, k)
  {
    if k > 0 {
      MulBlockScales(x, v, j, b, k - 1);
      MulAssociates(x, MulBlock(1, v, j, b, k - 1), v[k - 1]);
    }
  }

  lemma {:induction false} MulBlocksScales(x: int, v: seq<int>, j: nat, b: nat)
    requires Operands(v) && b <= 10
    ensures MulBlocks(x, v, j, b) == x * MulBlocks(1, v, j, b)
  {
    if b > 0 {
      var before := MulBlocks(x, v, j, b - 1);
      var unit := MulBlocks(1, v, j, b - 1);
      MulBlocksScales(x, v, j, b - 1);
      MulBlockScales(before, v, j, b - 1, 10);
      MulBlockScales(unit, v, j, b - 1, 10);
      MulAssociates(x, unit, MulBlock(1, v, j, b - 1, 10));
    }
  }

  /**
   * One iteration resets `r_j` when it is above the threshold and then
   * multiplies it by `Factor(v, j)`: the order of the hundred statements
   * does not matter for the value.
   */
  lemma MulIterationIsProduct(r: seq<int>, v: seq<int>, threshold: int, j: nat)
    requires Operands(v) && |r| == 5 && j < 5
    ensures MulIteration(r, v, threshold)[j] == ResetAbove(r[j], threshold) * Factor(v, j)
  {
    MulBlocksScales(ResetAbove(r[j], threshold), v, j, 10);
  }

  /** A product of operands that are all at least 1 is at least 1. */
  lemma {:induction false} MulBlockAtLeast(x: int, v: seq<int>, j: nat, b: nat, k: nat)
    requires Operands(v) && b < 10 && k <= 10 && x >= 1
    requires forall i :: 0 <= i < 10 ==> v[i] >= 1
    ensures MulBlock(x, v, j, b, k) >= x
  {
    if k > 0 {
      MulBlockAtLeast(x, v, j, b, k - 1);
      var y := MulBlock(x, v, j, b, k - 1);
      if MulTarget(b, k - 1) == j {
        MulGrows(y, v[k - 1]);
      }
    }
  }

  lemma MulGrows(y: int, c: int)
    requires y >= 1 && c >= 1
    ensures y * c >= y
  {
  }

  lemma {:induction false} MulBlocksAtLeast(x: int, v: seq<int>, j: nat, b: nat)
    requires Operands(v) && b <= 10 && x >= 1
    requires forall i :: 0 <= i < 10 ==> v[i] >= 1
    ensures MulBlocks(x, v, j, b) >= x
  {
    if b > 0 {
      MulBlocksAtLeast(x, v, j, b - 1);
      MulBlockAtLeast(MulBlocks(x, v, j, b - 1), v, j, b - 1, 10);
    }
  }

  lemma MulBounded(a: int, t: int, f: int)
    requires 1 <= a <= t && f >= 1
    ensures a * f <= t * f
  {
  }

  /**
   * What the reset is for: with a threshold of at least 1 and operands of
   * at least 1, every accumulator stays at least 1, and after any iteration
   * it is at most `threshold * Factor(v, j)`, because each iteration starts
   * from at most `threshold`.
   */
  lemma {:induction false} MulRunBounded(n: nat, v: seq<int>, threshold: int, j: nat)
    requires Operands(v) && threshold >= 1 && j < 5
    requires forall i :: 0 <= i < 10 ==> v[i] >= 1
    ensures MulRun(n, v, threshold)[j] >= 1
    ensures n > 0 ==> MulRun(n, v, threshold)[j] <= threshold * Factor(v, j)
  {
    if n > 0 {
      var prev := MulRun(n - 1, v, threshold);
      MulRunBounded(n - 1, v, threshold, j);
      var start := ResetAbove(prev[j], threshold);
      MulIterationIsProduct(prev, v, threshold, j);
      MulBlocksAtLeast(1, v, j, 10);
      MulBlocksAtLeast(start, v, j, 10);
      MulBounded(start, threshold, Factor(v, j));
    }
  }

  /**
   * `mul(n, v0, ..., v9, threshold)`: `n` iterations, each resetting the
   * accumulators above `threshold` to 1 and then running the hundred
   * multiplications. `r` is what the volatile accumulators hold at the end
   * and `ops` the number of multiplications.
   */
  method Mul(n: nat, v: seq<int>, threshold: int) returns (r: seq<int>, ops: nat)
    requires Operands(v)
    ensures r == MulRun(n, v, threshold)
    ensures ops == 100 * n
  {
    r := [1, 1, 1, 1, 1];
    ops := 0;
    for i := 0 to n
      invariant r == MulRun(i, v, threshold) && ops == 100 * i
    {
      ghost var prev := r;
      for j := 0 to 5
        invariant |r| == 5
        invariant forall j' :: 0 <= j' < 5 ==> r[j'] == if j' < j then ResetAbove(prev[j'], threshold) else prev[j']
      {
        if r[j] > threshold {
          r := r[j := 1];
        }
      }
      for b := 0 to 10
        invariant |r| == 5 && ops == 100 * i + 10 * b
        invariant forall j :: 0 <= j < 5 ==> r[j] == MulBlocks(ResetAbove(prev[j], threshold), v, j, b)
      {
        ghost var blockStart := r;
        for k := 0 to 10
          invariant |r| == 5 && ops == 100 * i + 10 * b + k
          invariant forall j :: 0 <= j < 5 ==> r[j] == MulBlock(blockStart[j], v, j, b, k)
        {
          var t := MulTarget(b, k);
          r := r[t := r[t] * v[k]];
          ops := ops + 1;
        }
      }
      assert r == MulIteration(prev, v, threshold);
    }
  }

  // ---------------------------------------------------------------------
  // div
  // ---------------------------------------------------------------------

  function Abs(x: int): nat
  {
    if x < 0 then -x else x
  }

  /**
   * C++ integer division, which truncates toward zero. The quotient never
   * has a larger magnitude than the dividend, and it is the floor quotient
   * when neither operand is negative.
   */
  function TruncDiv(a: int, d: int): (q: int)
    requires d != 0
    ensures Abs(q) == Abs(a) / Abs(d) && Abs(q) <= Abs(a)
    ensures a >= 0 && d > 0 ==> q == a / d
    ensures q == 0 || ((q > 0) <==> ((a > 0) == (d > 0)))
  {
    var m: int := Quotient(Abs(a), Abs(d));
    if (a >= 0) == (d > 0) then m else -m
  }

  /** The quotient of magnitudes, which is no larger than the dividend. */
  function Quotient(x: nat, y: nat): (m: nat)
    requires y >= 1
    ensures m == x / y && m <= x
  {
    x / y
  }

  /** No operand is zero, so every division of `div` is defined. */
  predicate NonZero(v: seq<int>)
    requires Operands(v)
  {
    forall i :: 0 <= i < 10 ==> v[i] != 0
  }

  /** The reset at the top of each `div` iteration: negative means back to `max`. */
  function ResetNegative(x: int, max: int): (y: int)
    ensures y == x || (x < 0 && y == max)
  {
    if x < 0 then max else x
  }

  /** `x` after the first `k` statements of block `b` that divide `r_j`. */
  function DivBlock(x: int, v: seq<int>, j: nat, b: nat, k: nat): int
    requires Operands(v) && NonZero(v) && b < 10 && k <= 10
  {
    if k == 0 then x
    else
      var y := DivBlock(x, v, j, b, k - 1);
      if MulTarget(b, k - 1) == j then TruncDiv(y, v[k - 1]) else y
  }

  /** `x` after the statements of blocks `0 .. b-1` that divide `r_j`. */
  function DivBlocks(x: int, v: seq<int>, j: nat, b: nat): int
    requires Operands(v) && NonZero(v) && b <= 10
  {
    if b == 0 then x else DivBlock(DivBlocks(x, v, j, b - 1), v, j, b - 1, 10)
  }

  /** The accumulators after one iteration of `div` that starts from `r`. */
  function DivIteration(r: seq<int>, v: seq<int>, max: int): (r': seq<int>)
    requires Operands(v) && NonZero(v) && |r| == 5
    ensures |r'| == 5
  {
    seq(5, j requires 0 <= j < 5 => DivBlocks(ResetNegative(r[j], max), v, j, 10))
  }

  /**
   * The accumulators after `n` iterations of `div`; they start at `max`,
   * the largest value of `T`. With no iteration no operand is used.
   */
  function DivRun(n: nat, v: seq<int>, max: int): (r: seq<int>)
    requires Operands(v) && (n == 0 || NonZero(v))
    ensures |r| == 5
  {
    if n == 0 then [max, max, max, max, max] else DivIteration(DivRun(n - 1, v, max), v, max)
  }

  /** Truncating division never makes an accumulator larger in magnitude. */
  lemma {:induction false} DivBlockShrinks(x: int, v: seq<int>, j: nat, b: nat, k: nat)
    requires Operands(v) && NonZero(v) && b < 10 && k <= 10
    ensures Abs(DivBlock(x, v, j, b, k)) <= Abs(x)
  {
    if k > 0 {
      DivBlockShrinks(x, v, j, b, k - 1);
    }
  }

  lemma {:induction false} DivBlocksShrinks(x: int, v: seq<int>, j: nat, b: nat)
    requires Operands(v) && NonZero(v) && b <= 10
    ensures Abs(DivBlocks(x, v, j, b)) <= Abs(x)
  {
    if b > 0 {
      DivBlocksShrinks(x, v, j, b - 1);
      DivBlockShrinks(DivBlocks(x, v, j, b - 1), v, j, b - 1, 10);
    }
  }

  /**
   * Every accumulator of `div` stays within `[-max, max]`. In two's
   * complement the one overflowing division is the minimum divided by -1,
   * and the minimum is below `-max`, so no division of `div` overflows.
   */
  lemma {:induction false} DivRunBounded(n: nat, v: seq<int>, max: int, j: nat)
    requires Operands(v) && (n == 0 || NonZero(v)) && max > 0 && j < 5
    ensures Abs(DivRun(n, v, max)[j]) <= max
  {
    if n > 0 {
      var prev := DivRun(n - 1, v, max);
      DivRunBounded(n - 1, v, max, j);
      DivBlocksShrinks(ResetNegative(prev[j], max), v, j, 10);
    }
  }

  /** Operands that are all positive. */
  predicate Positive(v: seq<int>)
    requires Operands(v)
  {
    forall i :: 0 <= i < 10 ==> v[i] > 0
  }

  /** `(a / b) / c == a / (b * c)` for a dividend of at least 0 and positive divisors. */
  lemma NestedDivision(a: nat, b: nat, c: nat)
    requires b > 0 && c > 0
    ensures (a / b) / c == a / (b * c)
  {
    var q1, r1 := a / b, a % b;
    var q2, r2 := q1 / c, q1 % c;
    assert a == b * q1 + r1;
    assert q1 == c * q2 + r2;
    var rest := b * r2 + r1;
    Regroup(b, c, q2, r2);
    assert a == (b * c) * q2 + rest;
    RemainderBound(b, c, r1, r2);
    DivisionUnique(a, b * c, q2, rest);
  }

  /** `b * (c * q + r) == (b * c) * q + b * r`. */
  lemma Regroup(b: int, c: int, q: int, r: int)
    ensures b * (c * q + r) == (b * c) * q + b * r
  {
    assert b * (c * q + r) == b * (c * q) + b * r;
    MulAssociates(b, c, q);
  }

  /** A remainder `r2 < c` scaled by `b`, plus a remainder `r1 < b`, is below `b * c`. */
  lemma RemainderBound(b: nat, c: nat, r1: nat, r2: nat)
    requires r1 < b && r2 < c
    ensures b * r2 + r1 < b * c
  {
    assert b * r2 <= b * (c - 1) by {
      MulMonotoneRight(b, r2, c - 1);
    }
    assert b * (c - 1) == b * c - b;
  }

  lemma MulMonotoneRight(b: nat, x: nat, y: nat)
    requires x <= y
    ensures b * x <= b * y
  {
    assert b * y == b * x + b * (y - x);
  }

  /** The quotient and remainder of a division are the only ones. */
  lemma DivisionUnique(a: nat, m: nat, q: nat, r: nat)
    requires m > 0 && a == m * q + r && r < m
    ensures a / m == q
  {
    var q', r' := a / m, a % m;
    assert m * q' + r' == m * q + r;
    assert m * (q - q') == r' - r;
    MulSign(m, q - q');
  }

  /** A nonzero multiple of `m > 0` is at least `m` away from 0. */
  lemma MulSign(m: int, d: int)
    requires m > 0
    ensures d >= 1 ==> m * d >= m
    ensures d <= -1 ==> m * d <= -m
  {
    if d >= 1 {
      MulMonotoneRight(m, 1, d);
    } else if d <= -1 {
      MulMonotoneRight(m, 1, -d);
      assert m * d == -(m * -d);
    }
  }

  /** With a dividend of at least 0, dividing statement by statement is dividing by the product. */
  lemma {:induction false} DivBlockIsQuotient(x: nat, v: seq<int>, j: nat, b: nat, k: nat)
    requires Operands(v) && NonZero(v) && Positive(v) && b < 10 && k <= 10
    ensures MulBlock(1, v, j, b, k) > 0
    ensures DivBlock(x, v, j, b, k) == x / MulBlock(1, v, j, b, k)
  {
    if k > 0 {
      DivBlockIsQuotient(x, v, j, b, k - 1);
      var p := MulBlock(1, v, j, b, k - 1);
      if MulTarget(b, k - 1) == j {
        NestedDivision(x, p, v[k - 1]);
        PositiveProduct(p, v[k - 1]);
      }
    }
  }

  lemma PositiveProduct(a: int, b: int)
    requires a > 0 && b > 0
    ensures a * b > 0
  {
  }

  lemma {:induction false} DivBlocksIsQuotient(x: nat, v: seq<int>, j: nat, b: nat)
    requires Operands(v) && NonZero(v) && Positive(v) && b <= 10
    ensures MulBlocks(1, v, j, b) > 0
    ensures DivBlocks(x, v, j, b) == x / MulBlocks(1, v, j, b)
  {
    if b > 0 {
      var p := MulBlocks(1, v, j, b - 1);
      var q := MulBlock(1, v, j, b - 1, 10);
      DivBlocksIsQuotient(x, v, j, b - 1);
      DivBlockIsQuotient(x / p, v, j, b - 1, 10);
      NestedDivision(x, p, q);
      MulBlockScales(p, v, j, b - 1, 10);
      PositiveProduct(p, q);
    }
  }

  /**
   * With positive operands nothing ever goes negative, so the reset of
   * `div` never fires, and one iteration divides `r_j` by the same
   * `Factor(v, j)` that `mul` multiplies it by.
   */
  lemma {:induction false} DivRunPositive(n: nat, v: seq<int>, max: int, j: nat)
    requires Operands(v) && NonZero(v) && Positive(v) && max > 0 && j < 5
    ensures Factor(v, j) > 0
    ensures DivRun(n, v, max)[j] >= 0
    ensures ResetNegative(DivRun(n, v, max)[j], max) == DivRun(n, v, max)[j]
    ensures DivRun(n + 1, v, max)[j] == DivRun(n, v, max)[j] / Factor(v, j)
  {
    DivBlocksIsQuotient(0, v, j, 10);
    if n > 0 {
      DivRunPositive(n - 1, v, max, j);
    }
    var x: nat := DivRun(n, v, max)[j];
    DivBlocksIsQuotient(x, v, j, 10);
  }

  /**
   * `div(n, v0, ..., v9)` with `max` the largest value of `T`: `n`
   * iterations, each resetting the negative accumulators to `max` and then
   * running the hundred truncating divisions. A zero operand is an error
   * once any division runs, so it is excluded when `n > 0`.
   */
  method Div(n: nat, v: seq<int>, max: int) returns (r: seq<int>, ops: nat)
    requires Operands(v) && (n == 0 || NonZero(v))
    ensures r == DivRun(n, v, max)
    ensures ops == 100 * n
  {
    r := [max, max, max, max, max];
    ops := 0;
    for i := 0 to n
      invariant r == DivRun(i, v, max) && ops == 100 * i
    {
      ghost var prev := r;
      for j := 0 to 5
        invariant |r| == 5
        invariant forall j' :: 0 <= j' < 5 ==> r[j'] == if j' < j then ResetNegative(prev[j'], max) else prev[j']
      {
        if r[j] < 0 {
          r := r[j := max];
        }
      }
      for b := 0 to 10
        invariant |r| == 5 && ops == 100 * i + 10 * b
        invariant forall j :: 0 <= j < 5 ==> r[j] == DivBlocks(ResetNegative(prev[j], max), v, j, b)
      {
        ghost var blockStart := r;
        for k := 0 to 10
          invariant |r| == 5 && ops == 100 * i + 10 * b + k
          invariant forall j :: 0 <= j < 5 ==> r[j] == DivBlock(blockStart[j], v, j, b, k)
        {
          var t := MulTarget(b, k);
          r := r[t := TruncDiv(r[t], v[k])];
          ops := ops + 1;
        }
      }
      assert r == DivIteration(prev, v, max);
    }
  }
}
