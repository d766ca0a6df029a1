/**
 * The local functions of the functions demo: `add`, `subtract` (with default arguments), `nextTwo`,
 * the vararg `getSum` and the tail-recursive factorial. All work on Kotlin `Int`, so every `+`, `-`
 * and `*` wraps around modulo 2^32.
 */
module Functions {
  import opened Int32

  /** `add(num1, num2) = num1 + num2`. */
  function Add(num1: int32, num2: int32): (r: int32)
    ensures Min <= num1 as int + num2 as int <= Max ==> r as int == num1 as int + num2 as int
  {
    Wrap(num1 as int + num2 as int)
  }

  /** `subtract(num1 = 1, num2 = 1) = num1 - num2`. */
  function Subtract(num1: int32 := 1, num2: int32 := 1): (r: int32)
    ensures Min <= num1 as int - num2 as int <= Max ==> r as int == num1 as int - num2 as int
  {
    Wrap(num1 as int - num2 as int)
  }

  /** Adding back what was subtracted gives the original `Int`, for all values, overflow included. */
  lemma AddUndoesSubtract(num1: int32, num2: int32)
    ensures Add(Subtract(num1, num2), num2) == num1
  {
    WrapAdd(num1 as int - num2 as int, num2 as int);
  }

  /** The calls in the demo: `subtract(5, 4)`, `subtract(num2 = 5, num1 = 4)`, and both defaults. */
  lemma SubtractSamples()
    ensures Subtract(5, 4) == 1 && Subtract(num2 := 5, num1 := 4) == -1 && Subtract() == 0
    ensures Add(5, 4) == 9
  {
  }

  /** `nextTwo(num) = Pair(num + 1, num + 2)`. */
  function NextTwo(num: int32): (r: (int32, int32))
    ensures Subtract(r.0, num) == 1 && Subtract(r.1, r.0) == 1
    ensures num as int + 2 <= Max ==> r.0 as int == num as int + 1 && r.1 as int == num as int + 2
  {
    var r := (Wrap(num as int + 1), Wrap(num as int + 2));
    WrapAdd(num as int + 1, 1);
    assert r.1 == Wrap(r.0 as int + 1);
    assert Subtract(r.0, num) == 1 by { WrapCongruent(r.0 as int - num as int, 1); }
    assert Subtract(r.1, r.0) == 1 by { WrapCongruent(r.1 as int - r.0 as int, 1); }
    r
  }

  /** The mathematical sum of the arguments, without wrap-around. */
  function Sum(nums: seq<int32>): int {
    if nums == [] then 0 else Sum(nums[..|nums| - 1]) + nums[|nums| - 1] as int
  }

  /** Summing a concatenation sums the parts: `getSum(*a, *b)` is `getSum(*a) + getSum(*b)` before wrapping. */
  lemma {:induction false} SumAppend(a: seq<int32>, b: seq<int32>)
    ensures Sum(a + b) == Sum(a) + Sum(b)
  {
    if b == [] {
      assert a + b == a;
    } else {
      assert (a + b)[..|a + b| - 1] == a + b[..|b| - 1];
      SumAppend(a, b[..|b| - 1]);
    }
  }

  /**
   * `getSum(vararg nums)`: `sum += n` for each argument in turn. The result is the sum of the
   * arguments, wrapped to an `Int`.
   */
  method GetSum(nums: seq<int32>) returns (sum: int32)
    ensures sum == Wrap(Sum(nums))
    ensures Min <= Sum(nums) <= Max ==> sum as int == Sum(nums)
  {
    sum := 0;
    for i := 0 to |nums|
      invariant sum == Wrap(Sum(nums[..i]))
    {
      assert nums[..i + 1][..i] == nums[..i];
      WrapAdd(Sum(nums[..i]), nums[i] as int);
      sum := Wrap(sum as int + nums[i] as int);
    }
    assert nums[..|nums|] == nums;
  }

  /** The demo's call `getSum(1, 2, 3, 4, 5)`. */
  method GetSumSample() returns (sum: int32)
    ensures sum == 15
  {
    var nums: seq<int32> := [1, 2, 3, 4, 5];
    SumAppend([1, 2], [3, 4, 5]);
    assert Sum([1, 2]) == 3 by { assert [1, 2][..1] == [1] && [1 as int32][..0] == []; }
    assert Sum([3, 4, 5]) == 12 by {
      assert [3, 4, 5][..2] == [3, 4] && [3, 4][..1] == [3] && [3 as int32][..0] == [];
    }
    assert nums == [1, 2] + [3, 4, 5];
    sum := GetSum(nums);
  }

  /** The mathematical factorial. */
  function Factorial(n: nat): (r: nat)
    ensures r >= 1
  {
    if n == 0 then 1 else n * Factorial(n - 1)
  }

  /**
   * `tailrec fun factTail(y, z) = if (y == 0) z else factTail(y - 1, y * z)`. On `Int`, `y - 1`
   * wraps from Min to Max, so the recursion ends for every `y`: it counts `y` down modulo 2^32.
   */
  function FactTail(y: int32, z: int32): (r: int32)
    ensures y >= 0 ==> r == Wrap(Factorial(y as int) * z as int)
    decreases if y >= 0 then y as int else y as int + Modulus
  {
    if y == 0 then z
    else
      var y', yz := Wrap(y as int - 1), y as int * z as int;
      var r := FactTail(y', Wrap(yz));
      if y > 0 then
        assert y' as int == y as int - 1;
        var f := Factorial(y' as int);
        WrapMul(f, yz);
        assert Factorial(y as int) == y as int * f;
        MulAssoc(f, y as int, z as int);
        r
      else r
  }

  /** `fact(x) = factTail(x, 1)`. */
  function Fact(x: int32): (r: int32)
    ensures x >= 0 ==> r == Wrap(Factorial(x as int))
    ensures 0 <= x <= 12 ==> r as int == Factorial(x as int)
  {
    if 0 <= x <= 12 then
      FactorialMonotone(x as int, 12);
      assert Factorial(12) == 479001600;
      FactTail(x, 1)
    else FactTail(x, 1)
  }

  /** Proof helper: regrouping a product of three factors. */
  lemma MulAssoc(a: int, b: int, c: int)
    ensures a * (b * c) == (b * a) * c
  {
  }

  /** Proof helper: the factorial grows with its argument. */
  lemma {:induction false} FactorialMonotone(m: nat, n: nat)
    requires m <= n
    ensures Factorial(m) <= Factorial(n)
  {
    if m < n {
      FactorialMonotone(m, n - 1);
    }
  }

  /** The demo's call: fact(5) == 120. */
  lemma FactSample()
    ensures Fact(5) == 120
  {
    assert Factorial(5) == 120;
  }

  /** From 13 on the factorial overflows: fact(13) is 13! minus 2^32, not 13!. */
  lemma FactOverflowsAt13()
    ensures Fact(13) as int == 1932053504 && Factorial(13) == 6227020800
  {
    assert Factorial(13) == 6227020800;
  }
}
