/**
 * The integer and string tools of the calculator MCP server. Python's `int` is
 * unbounded, as Dafny's is; where Python leaves the integers (a negative
 * exponent, `%`, `math.factorial` of a negative number) the float or the
 * exception is written out.
 */
module McpServer {
  import opened Results
  import opened Numbers
  import Utilities

  /** `add(a, b)`. */
  function Add(a: int, b: int): int { a + b }

  /** `subtract(a, b)`. */
  function Subtract(a: int, b: int): int { a - b }

  /** `multiply(a, b)`. */
  function Multiply(a: int, b: int): int { a * b }

  /** `mine(a, b)`: `a - b - b`. */
  function Mine(a: int, b: int): int { a - b - b }

  /** Subtracting undoes adding, adding is symmetric, and multiplying by 2 is adding twice. */
  lemma ArithmeticToolsAgree(a: int, b: int)
    ensures Subtract(Add(a, b), b) == a
    ensures Add(a, b) == Add(b, a)
    ensures Multiply(2, b) == Add(b, b)
  {
  }

  /** `mine` takes away twice the second argument. */
  lemma MineSubtractsTwice(a: int, b: int)
    ensures Mine(a, b) == Subtract(a, Multiply(2, b))
    ensures Mine(a, b) == Subtract(Subtract(a, b), b)
  {
  }

  /** `add_list(l)`: `sum(l)`. */
  function AddList(l: seq<int>): int { Sum(l) }

  /** Summing a list is adding its elements one by one, from the left. */
  lemma {:induction false} AddListIsRepeatedAdd(l: seq<int>)
    ensures AddList(l) == if l == [] then 0 else Add(l[0], AddList(l[1..]))
    ensures |l| == 2 ==> AddList(l) == Add(l[0], l[1])
  {
    if l != [] {
      SumFirst(l);
      if |l| == 2 {
        SumFirst(l[1..]);
        assert l[1..][1..] == [];
      }
    }
  }

  // ---------------------------------------------------------------------------
  // power
  // ---------------------------------------------------------------------------

  /** a multiplied by itself n times. */
  function Pow(a: int, n: nat): int
    decreases n
  {
    if n == 0 then 1 else a * Pow(a, n - 1)
  }

  lemma {:induction false} PowAdd(a: int, m: nat, n: nat)
    ensures Pow(a, m + n) == Pow(a, m) * Pow(a, n)
    decreases m
  {
    if m > 0 {
      PowAdd(a, m - 1, n);
      assert Pow(a, m + n) == a * Pow(a, m - 1 + n);
    }
  }

  /** The first integer `float(a)` cannot represent: halfway between the largest double and 2^1024. */
  const FloatOverflowBound: int := Pow(2, 1024) - Pow(2, 970)

  /** Every integer of magnitude at most 2^53 is a double; every double beyond that is even. */
  const ExactIntBound: int := Pow(2, 53)

  /**
   * `power(a, b)`: `int(a ** b)`. A non-negative exponent stays in the
   * integers. A negative one goes through floats: both operands are made
   * doubles first, so either one too large overflows; then 0 cannot be raised
   * to a negative power, `1` gives `1.0`, `-1` gives `±1.0` by the parity of
   * `float(b)` (even once b is past 2^53, where `float(b)` is rounded), and any
   * other base gives a fraction of magnitude at most 1/2, which `int()`
   * truncates to 0.
   */
  function Power(a: int, b: int): Result<int, string> {
    if b >= 0 then Ok(Pow(a, b))
    else if a >= FloatOverflowBound || -a >= FloatOverflowBound || -b >= FloatOverflowBound then
      Err("OverflowError: int too large to convert to float")
    else if a == 0 then Err("ZeroDivisionError: 0.0 cannot be raised to a negative power")
    else if a == 1 then Ok(1)
    else if a == -1 then Ok(if b % 2 == 0 || -b > ExactIntBound then 1 else -1)
    else Ok(0)
  }

  /** Powers of -1 alternate, starting from 1. */
  lemma {:induction false} PowMinusOne(n: nat)
    ensures Pow(-1, n) == if n % 2 == 0 then 1 else -1
    decreases n
  {
    if n > 0 {
      PowMinusOne(n - 1);
    }
  }

  lemma {:induction false} PowOne(n: nat)
    ensures Pow(1, n) == 1
    decreases n
  {
    if n > 0 {
      PowOne(n - 1);
    }
  }

  /** For a base of magnitude at least 2 the exact power 1/a^n has magnitude at most 1/2. */
  lemma {:induction false} PowGrows(a: int, n: nat)
    requires a >= 2 || a <= -2
    requires n >= 1
    ensures Pow(a, n) >= 2 || Pow(a, n) <= -2
    decreases n
  {
    if n > 1 {
      PowGrows(a, n - 1);
      assert Pow(a, n) == a * Pow(a, n - 1);
      ProductMagnitude(a, Pow(a, n - 1));
    }
  }

  lemma ProductMagnitude(a: int, p: int)
    requires (a >= 2 || a <= -2) && (p >= 2 || p <= -2)
    ensures a * p >= 2 || a * p <= -2
  {
    if a >= 2 && p >= 2 { assert a * p >= 2 * p; }
    else if a >= 2 { assert a * p <= 2 * p; }
    else if p >= 2 { assert a * p <= -2 * p; }
    else { assert a * p >= -2 * p; }
  }

  /**
   * `power` agrees with repeated multiplication; a negative exponent
   * overflows when either operand is too large for a double, truncates 1/a^n
   * to 0 for every other base of magnitude at least 2, and gives the exact
   * 1/a^n for the bases 1 and -1 while `float(b)` is exact; past 2^53
   * `float(b)` is even, so -1 gives 1.
   */
  lemma PowerMeaning(a: int, b: int)
    ensures b >= 0 ==> Power(a, b) == Ok(Pow(a, b))
    ensures b >= 0 ==> Power(a, b + 1) == Ok(Multiply(a, Pow(a, b)))
    ensures b < 0 && (a >= FloatOverflowBound || -a >= FloatOverflowBound || -b >= FloatOverflowBound) ==>
              Power(a, b) == Err("OverflowError: int too large to convert to float")
    ensures b < 0 && -FloatOverflowBound < b ==>
              Power(0, b) == Err("ZeroDivisionError: 0.0 cannot be raised to a negative power")
    ensures b < 0 && a != 0 && -FloatOverflowBound < a < FloatOverflowBound && -FloatOverflowBound < b ==>
              Power(a, b).Ok? && (Power(a, b).value == 0 <==> (a >= 2 || a <= -2))
    ensures -ExactIntBound <= b < 0 && (a == 1 || a == -1) ==> Power(a, b) == Ok(Pow(a, -b))
    ensures ExactIntBound < -b < FloatOverflowBound ==> Power(-1, b) == Ok(1)
  {
    if b < 0 && -FloatOverflowBound < b {
      PowerOfZero(b);
    }
    if b < 0 && a != 0 && -FloatOverflowBound < a < FloatOverflowBound && -FloatOverflowBound < b {
      PowerTruncates(a, b);
    }
    if -ExactIntBound <= b < 0 && (a == 1 || a == -1) {
      PowerOfUnit(a, b);
    }
    if ExactIntBound < -b < FloatOverflowBound {
      PowerOfMinusOneRounded(b);
    }
  }

  /** Zero, which converts to a double, raised to a representable negative power divides by zero. */
  lemma PowerOfZero(b: int)
    requires -FloatOverflowBound < b < 0
    ensures Power(0, b) == Err("ZeroDivisionError: 0.0 cannot be raised to a negative power")
  {
    BoundsOrdered();
  }

  /** Past 2^53 `float(b)` is an even whole number, so -1 raised to it is 1 whatever the parity of b. */
  lemma PowerOfMinusOneRounded(b: int)
    requires ExactIntBound < -b < FloatOverflowBound
    ensures Power(-1, b) == Ok(1)
  {
    BoundsOrdered();
  }

  /** Every other representable base of a negative power gives 0 exactly when its magnitude is at least 2. */
  lemma PowerTruncates(a: int, b: int)
    requires b < 0 && a != 0 && -FloatOverflowBound < a < FloatOverflowBound && -FloatOverflowBound < b
    ensures Power(a, b).Ok? && (Power(a, b).value == 0 <==> (a >= 2 || a <= -2))
  {
    if a >= 2 || a <= -2 {
      PowGrows(a, -b);
    }
  }

  /** While `float(b)` is exact, 1 and -1 raised to b give exactly 1/a^(-b). */
  lemma PowerOfUnit(a: int, b: int)
    requires -ExactIntBound <= b < 0 && (a == 1 || a == -1)
    ensures Power(a, b) == Ok(Pow(a, -b))
  {
    BoundsOrdered();
    PowMinusOne(-b);
    PowOne(-b);
    assert (b % 2 == 0) <==> ((-b) % 2 == 0);
  }

  /** 2^53 lies far below the first integer a double cannot hold. */
  lemma BoundsOrdered()
    ensures 0 < ExactIntBound < FloatOverflowBound
  {
    PowPositive(2, 53);
    PowGrows(2, 53);
    PowPositive(2, 970);
    PowAdd(2, 54, 970);
    assert Pow(2, 54) == 2 * Pow(2, 53);
    Gap(Pow(2, 53), Pow(2, 970));
  }

  lemma Gap(e: int, p: int)
    requires e >= 2 && p >= 1
    ensures e < (2 * e) * p - p
  {
    assert (2 * e - 1) * p >= 2 * e - 1;
  }

  lemma {:induction false} PowPositive(a: int, n: nat)
    requires a > 0
    ensures Pow(a, n) > 0
    decreases n
  {
    if n > 0 {
      PowPositive(a, n - 1);
    }
  }

  // ---------------------------------------------------------------------------
  // factorial and remainder
  // ---------------------------------------------------------------------------

  /** 1 * 2 * ... * n. */
  function Fact(n: nat): nat
    decreases n
  {
    if n == 0 then 1 else n * Fact(n - 1)
  }

  /** `factorial(a)`: `math.factorial` rejects negative numbers. */
  function Factorial(a: int): Result<int, string> {
    if a < 0 then Err("ValueError: factorial() not defined for negative values") else Ok(Fact(a))
  }

  /** The product of the numbers from 1 to n other than k. */
  function Cofactor(n: nat, k: nat): nat
    requires 1 <= k <= n
    decreases n
  {
    if n == k then Fact(n - 1) else n * Cofactor(n - 1, k)
  }

  /**
   * The factorial of a non-negative number is positive and divisible by every
   * number from 1 to it: it is that number times the product of the others.
   */
  lemma {:induction false} FactorialMeaning(a: nat)
    ensures Factorial(a) == Ok(Fact(a)) && Fact(a) >= 1
    ensures forall k :: 1 <= k <= a ==> Fact(a) == k * Cofactor(a, k)
    decreases a
  {
    if a > 0 {
      FactorialMeaning(a - 1);
      forall k | 1 <= k <= a ensures Fact(a) == k * Cofactor(a, k) {
        if k < a {
          CofactorStep(a, k);
        }
      }
    }
  }

  /** Multiplying in the next number keeps the factor k: a * (k * c) is k * (a * c). */
  lemma CofactorStep(a: nat, k: nat)
    requires 1 <= k < a && Fact(a - 1) == k * Cofactor(a - 1, k)
    ensures Fact(a) == k * Cofactor(a, k)
  {
    var c := Cofactor(a - 1, k);
    assert Cofactor(a, k) == a * c;
    assert Fact(a) == a * (k * c);
    MulSwap(a, k, c);
  }

  lemma MulSwap(a: int, k: int, c: int)
    ensures a * (k * c) == k * (a * c)
  {
  }

  /** Python's `a // b`, rounding toward negative infinity. */
  function FloorDiv(a: int, b: int): int
    requires b != 0
  {
    if b > 0 || a % b == 0 then a / b else a / b - 1
  }

  /** Python's `a % b`: the remainder takes the sign of the divisor. */
  function PyMod(a: int, b: int): int
    requires b != 0
  {
    if b > 0 || a % b == 0 then a % b else a % b + b
  }

  /** `remainder(a, b)`: `int(a % b)`, with the error for a zero divisor. */
  function Remainder(a: int, b: int): (r: Result<int, string>)
    ensures r.Err? <==> b == 0
    ensures r.Ok? ==> a == b * FloorDiv(a, b) + r.value
    ensures r.Ok? && b > 0 ==> 0 <= r.value < b
    ensures r.Ok? && b < 0 ==> b < r.value <= 0
  {
    if b == 0 then Err("ZeroDivisionError: integer modulo by zero") else Ok(PyMod(a, b))
  }

  /** A non-zero multiple of b is at least as far from 0 as b. */
  lemma MultipleAtLeast(b: int, d: int)
    requires b != 0 && d != 0
    ensures var p := b * d; var m := if b < 0 then -b else b; p >= m || p <= -m
  {
    if d > 0 {
      assert b * d == b * (d - 1) + b;
      if b > 0 { assert b * (d - 1) >= 0; } else { assert b * (d - 1) <= 0; }
    } else {
      assert b * d == -(b * (-d - 1)) - b;
      if b > 0 { assert b * (-d - 1) >= 0; } else { assert b * (-d - 1) <= 0; }
    }
  }

  lemma Distribute(b: int, x: int, y: int)
    ensures b * x - b * y == b * (x - y)
  {
  }

  /** The quotient and remainder are the only pair with the remainder on the divisor's side. */
  lemma RemainderUnique(a: int, b: int, q: int, r: int)
    requires b != 0 && a == b * q + r
    requires b > 0 ==> 0 <= r < b
    requires b < 0 ==> b < r <= 0
    ensures Remainder(a, b) == Ok(r) && FloorDiv(a, b) == q
  {
    var res := Remainder(a, b);
    var q0 := FloorDiv(a, b);
    Distribute(b, q0, q);
    if q0 != q {
      MultipleAtLeast(b, q0 - q);
    }
  }

  /** Python's `%` differs from Dafny's for a negative divisor: `7 % -3` is -2 there and 1 here. */
  lemma RemainderOfNegativeDivisor()
    ensures Remainder(7, -3) == Ok(-2) && 7 % -3 == 1
  {
  }

  // ---------------------------------------------------------------------------
  // strings and sequences
  // ---------------------------------------------------------------------------

  /** `strings_to_chars_to_int(string)`: the code point of every character. */
  function StringsToCharsToInt(s: string): (codes: seq<int>)
    ensures |codes| == |s|
  {
    seq(|s|, i requires 0 <= i < |s| => s[i] as int)
  }

  /** The code points give back the string: no character is lost or changed. */
  lemma CodePointsRoundTrip(s: string)
    ensures var codes := StringsToCharsToInt(s);
            forall i :: 0 <= i < |codes| ==> 0 <= codes[i] < 0x11_0000 && codes[i] as char == s[i]
  {
  }

  /**
   * `fibonacci_numbers(n)`: starts from `[0, 1]` whatever n is, extends it to
   * n numbers, and cuts the list to n with `[:n]`, so n = 1 gives `[0]`.
   */
  method FibonacciNumbers(n: int) returns (fib: seq<int>)
    ensures fib == Utilities.FibonacciList(n)
  {
    if n <= 0 {
      return [];
    }
    var seqSoFar := [0, 1];
    var i := 2;
    while i < n
      invariant 2 <= i && (i <= n || n < 2)
      invariant seqSoFar == FibPrefix(i)
    {
      FibPrefixExtends(i);
      seqSoFar := seqSoFar + [seqSoFar[|seqSoFar| - 1] + seqSoFar[|seqSoFar| - 2]];
      i := i + 1;
    }
    assert |seqSoFar| >= n;
    assert seqSoFar[..n] == FibPrefix(n);
    fib := seqSoFar[..n];
  }

  /** `get_greeting(name)`: `Hello, <name>!`. */
  function GetGreeting(name: string): string {
    "Hello, " + name + "!"
  }

  /** The name can be read back from the greeting, so different names get different greetings. */
  lemma GreetingNameRecoverable(name: string, other: string)
    ensures var g := GetGreeting(name);
            |g| == |name| + 8 && g[7..|g| - 1] == name
    ensures GetGreeting(name) == GetGreeting(other) ==> name == other
  {
    var g := GetGreeting(name);
    assert g[7..|g| - 1] == name;
    var h := GetGreeting(other);
    assert h[7..|h| - 1] == other;
  }
}
