/**
 * The three math helpers of the first math agent: the Fibonacci list built by
 * appending in a loop, the guard of the base-10 logarithm, and the list sum.
 */
module Utilities {
  import opened Results
  import opened Numbers

  /** What `generate_fibonacci(n)` returns: no number for n <= 0, otherwise the first n. */
  function FibonacciList(n: int): seq<int> {
    if n <= 0 then [] else FibPrefix(n)
  }

  /** The early returns of `generate_fibonacci` and the loop's recurrence all agree with the first max(n, 0) numbers. */
  lemma FibonacciListShape(n: int)
    ensures |FibonacciList(n)| == if n <= 0 then 0 else n
    ensures n == 1 ==> FibonacciList(n) == [0]
    ensures n == 2 ==> FibonacciList(n) == [0, 1]
    ensures n >= 1 ==> FibonacciList(n)[0] == 0
    ensures n >= 2 ==> FibonacciList(n)[1] == 1
    ensures forall i :: 2 <= i < |FibonacciList(n)| ==>
              FibonacciList(n)[i] == FibonacciList(n)[i - 1] + FibonacciList(n)[i - 2]
  {
    if n > 0 {
      FibPrefixShape(n);
    }
  }

  /** `generate_fibonacci(n)`: `[0, 1]`, then each new number is the sum of the last two. */
  method GenerateFibonacci(n: int) returns (fib: seq<int>)
    ensures fib == FibonacciList(n)
  {
    if n <= 0 {
      return [];
    } else if n == 1 {
      return [0];
    } else if n == 2 {
      return [0, 1];
    }
    fib := [0, 1];
    for i := 2 to n
      invariant fib == FibPrefix(i)
    {
      FibPrefixExtends(i);
      fib := fib + [fib[|fib| - 1] + fib[|fib| - 2]];
    }
  }

  const LogDomainError := "ValueError: Logarithm is undefined for non-positive values."

  /** `log_base_10(x)`: the error for x <= 0, otherwise what `math.log10` gives. */
  function LogBase10<F>(x: int, log10: int -> F): (r: Result<F, string>)
    ensures r.Err? <==> x <= 0
    ensures r.Err? ==> r.error == LogDomainError
    ensures r.Ok? ==> r.value == log10(x)
  {
    if x <= 0 then Err(LogDomainError) else Ok(log10(x))
  }

  /** `sum_list(lst)`. */
  function SumList(lst: seq<int>): int {
    Sum(lst)
  }

  /** The sum of a list is the sum of its parts, and the empty list sums to 0. */
  lemma SumListSplits(xs: seq<int>, ys: seq<int>)
    ensures SumList([]) == 0
    ensures SumList(xs + ys) == SumList(xs) + SumList(ys)
  {
    SumAppend(xs, ys);
  }
}
