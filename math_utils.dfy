/** The numeric utilities of demo-1/index.js: two validated area formulas, the
    trial-division prime test and the sum of primes, a sort that returns a sorted
    copy, and the Fibonacci prefix. A thrown `Error` becomes `Failure` with the
    message the source throws. */
module MathUtils {
  import opened Wrappers

  // ---------------------------------------------------------------------------
  // Areas
  // ---------------------------------------------------------------------------

  /** `calculateTriangleArea(base, height)`. */
  function CalculateTriangleArea(base: real, height: real): (r: Result<real, string>)
    ensures r.Failure? <==> base <= 0.0 || height <= 0.0
    ensures r.Failure? ==> r.error == "Base and height must be positive numbers"
    ensures r.Success? ==> r.value > 0.0 && 2.0 * r.value == base * height
  {
    if base <= 0.0 || height <= 0.0 then Failure("Base and height must be positive numbers")
    else Success((base * height) / 2.0)
  }

  /** `calculateRectangleArea(width, height)`. */
  function CalculateRectangleArea(width: real, height: real): (r: Result<real, string>)
    ensures r.Failure? <==> width <= 0.0 || height <= 0.0
    ensures r.Failure? ==> r.error == "Width and height must be positive numbers"
    ensures r.Success? ==> r.value > 0.0
  {
    if width <= 0.0 || height <= 0.0 then Failure("Width and height must be positive numbers")
    else Success(width * height)
  }

  /** Both formulas accept the same inputs, and a triangle is half the rectangle
      on the same base and height. */
  lemma TriangleIsHalfRectangle(base: real, height: real)
    ensures CalculateTriangleArea(base, height).Success? <==> CalculateRectangleArea(base, height).Success?
    ensures CalculateTriangleArea(base, height).Success? ==>
      2.0 * CalculateTriangleArea(base, height).value == CalculateRectangleArea(base, height).value
  {
  }

  // ---------------------------------------------------------------------------
  // Primes
  // ---------------------------------------------------------------------------

  /** An integer of at least 2 with no divisor strictly between 1 and itself. */
  ghost predicate Prime(n: int)
  {
    n >= 2 && forall d :: 2 <= d < n ==> n % d != 0
  }

  /** A multiple of d leaves no remainder when divided by d. */
  lemma ModOfMultiple(d: int, q: int)
    requires d > 0
    ensures (d * q) % d == 0
  {
    var n := d * q;
    var x := q - n / d;
    assert d * x == n % d;
  }

  /** An odd number has no even divisor. */
  lemma OddHasNoEvenDivisor(n: int, d: int)
    requires n > 0 && n % 2 != 0 && d > 0 && d % 2 == 0
    ensures n % d != 0
  {
    if n % d == 0 {
      var q, k := n / d, d / 2;
      assert n == d * q;
      assert d * q == 2 * (k * q);
      ModOfMultiple(2, k * q);
    }
  }

  lemma MulAtLeast(a: int, b: int, c: int)
    requires 0 <= c <= a && 0 <= c <= b
    ensures c * c <= a * b
  {
    assert c * c <= a * c;
    assert a * c <= a * b;
  }

  /** Trial division may stop at the square root: a divisor at or above `i`
      would pair with one below `i`. */
  lemma NoSmallDivisorMeansPrime(num: int, i: int)
    requires num >= 2 && i >= 2 && i * i > num
    requires forall d :: 2 <= d < i ==> num % d != 0
    ensures Prime(num)
  {
    forall d | 2 <= d < num
      ensures num % d != 0
    {
      if d >= i && num % d == 0 {
        var q := num / d;
        assert num == q * d;
        if q >= i {
          MulAtLeast(d, q, i);
        }
        ModOfMultiple(q, d);
      }
    }
  }

  /** `isPrime(num)`: trial division by 2 and by the odd numbers up to the square root. */
  method IsPrime(num: int) returns (b: bool)
    ensures b <==> Prime(num)
  {
    if num < 2 {
      return false;
    }
    if num == 2 {
      return true;
    }
    if num % 2 == 0 {
      return false;
    }
    var i := 3;
    while i * i <= num
      invariant 3 <= i && i % 2 == 1
      invariant forall d :: 2 <= d < i ==> num % d != 0
    {
      if num % i == 0 {
        return false;
      }
      OddHasNoEvenDivisor(num, i + 1);
      i := i + 2;
    }
    NoSmallDivisorMeansPrime(num, i);
    return true;
  }

  /** The sum of the primes p with 2 <= p <= n. */
  ghost function PrimeSum(n: int): int
    decreases n
  {
    if n < 2 then 0 else PrimeSum(n - 1) + (if Prime(n) then n else 0)
  }

  /** `sumOfPrimes(n)`. */
  method SumOfPrimes(n: int) returns (sum: int)
    ensures sum == PrimeSum(n)
    ensures n < 2 ==> sum == 0
  {
    if n < 2 {
      return 0;
    }
    sum := 0;
    var i := 2;
    while i <= n
      invariant 2 <= i <= n + 1
      invariant sum == PrimeSum(i - 1)
    {
      var isPrime := IsPrime(i);
      if isPrime {
        sum := sum + i;
      }
      i := i + 1;
    }
  }

  /** The primes up to 10 are 2, 3, 5 and 7. */
  lemma PrimeSumUpToTen()
    ensures PrimeSum(10) == 17
  {
    NoSmallDivisorMeansPrime(2, 2);
    NoSmallDivisorMeansPrime(3, 2);
    NoSmallDivisorMeansPrime(5, 3);
    NoSmallDivisorMeansPrime(7, 3);
    assert !Prime(4) by { assert 4 % 2 == 0; }
    assert !Prime(6) by { assert 6 % 2 == 0; }
    assert !Prime(8) by { assert 8 % 2 == 0; }
    assert !Prime(9) by { assert 9 % 3 == 0; }
    assert !Prime(10) by { assert 10 % 2 == 0; }
  }

  // ---------------------------------------------------------------------------
  // Sorting
  // ---------------------------------------------------------------------------

  predicate Sorted(s: seq<real>)
  {
    forall i, j :: 0 <= i < j < |s| ==> s[i] <= s[j]
  }

  function Insert(x: real, s: seq<real>): (r: seq<real>)
    requires Sorted(s)
    ensures Sorted(r) && multiset(r) == multiset(s) + multiset{x}
    ensures |r| == |s| + 1 && (r[0] == x || (|s| > 0 && r[0] == s[0]))
  {
    if |s| == 0 then [x]
    else if x <= s[0] then [x] + s
    else
      var rest := Insert(x, s[1..]);
      assert s == [s[0]] + s[1..];
      assert s[0] <= rest[0];
      var r := [s[0]] + rest;
      assert forall j :: 1 <= j < |r| ==> r[j] == rest[j - 1] && rest[0] <= rest[j - 1];
      r
  }

  /** `sortArray(arr)`: an ascending permutation of `arr`. The argument is a value,
      so the caller's array is untouched, as `arr.slice()` ensures in the source. */
  function SortArray(arr: seq<real>): (r: seq<real>)
    ensures Sorted(r) && multiset(r) == multiset(arr)
  {
    if |arr| == 0 then []
    else
      assert arr == [arr[0]] + arr[1..];
      Insert(arr[0], SortArray(arr[1..]))
  }

  // ---------------------------------------------------------------------------
  // Fibonacci
  // ---------------------------------------------------------------------------

  function Fib(k: nat): nat
  {
    if k == 0 then 0 else if k == 1 then 1 else Fib(k - 1) + Fib(k - 2)
  }

  lemma FibRecurrence(s: seq<int>)
    requires forall k :: 0 <= k < |s| ==> s[k] == Fib(k)
    ensures forall k :: 2 <= k < |s| ==> s[k] == s[k - 1] + s[k - 2]
  {
  }

  /** `fibonacci(n)`: the first n Fibonacci numbers. The JavaScript array grows
      as the loop assigns past its end, so it is a sequence that the loop extends. */
  method Fibonacci(n: int) returns (r: Result<seq<int>, string>)
    ensures r.Failure? <==> n <= 0
    ensures r.Failure? ==> r.error == "Input must be a positive integer"
    ensures r.Success? ==> |r.value| == n && forall k :: 0 <= k < n ==> r.value[k] == Fib(k)
    ensures r.Success? ==> r.value[0] == 0 && (n >= 2 ==> r.value[1] == 1)
    ensures r.Success? ==> forall k :: 2 <= k < n ==> r.value[k] == r.value[k - 1] + r.value[k - 2]
  {
    if n <= 0 {
      return Failure("Input must be a positive integer");
    }
    var fib := [0, 1];
    var i := 2;
    assert Fib(1) == 1;
    while i < n
      invariant 2 <= i && |fib| == i
      invariant forall k {:trigger fib[k]} :: 0 <= k < i ==> fib[k] == Fib(k)
    {
      assert Fib(i) == Fib(i - 1) + Fib(i - 2);
      fib := fib + [fib[i - 1] + fib[i - 2]];
      i := i + 1;
    }
    var prefix := fib[..n];
    FibRecurrence(prefix);
    return Success(prefix);
  }
}
