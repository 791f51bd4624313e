/**
 * The integer sequences the Python tools produce: the Fibonacci numbers,
 * counted from `Fib(0) == 0`, and Python's built-in `sum` over integers.
 */
module Numbers {

  function Fib(i: nat): nat
    decreases i
  {
    if i < 2 then i else Fib(i - 1) + Fib(i - 2)
  }

  /** The first n Fibonacci numbers. */
  function FibPrefix(n: nat): (r: seq<int>)
    ensures |r| == n
  {
    seq(n, i requires 0 <= i < n => Fib(i))
  }

  /** The list of the first n numbers grows by the next number. */
  lemma FibPrefixExtends(n: nat)
    ensures FibPrefix(n + 1) == FibPrefix(n) + [Fib(n)]
  {
    assert FibPrefix(n + 1)[..n] == FibPrefix(n);
  }

  /** The list starts `0, 1`, and from index 2 every number is the sum of the two before it. */
  lemma FibPrefixShape(n: nat)
    ensures n >= 1 ==> FibPrefix(n)[0] == 0
    ensures n >= 2 ==> FibPrefix(n)[1] == 1
    ensures forall i :: 2 <= i < n ==> FibPrefix(n)[i] == FibPrefix(n)[i - 1] + FibPrefix(n)[i - 2]
  {
  }

  /** `sum(xs)`: 0 for the empty list. */
  function Sum(xs: seq<int>): int
    decreases |xs|
  {
    if xs == [] then 0 else Sum(xs[..|xs| - 1]) + xs[|xs| - 1]
  }

  /** Summing splits over concatenation. */
  lemma {:induction false} SumAppend(xs: seq<int>, ys: seq<int>)
    ensures Sum(xs + ys) == Sum(xs) + Sum(ys)
    decreases |ys|
  {
    if ys == [] {
      assert xs + ys == xs;
    } else {
      var init := ys[..|ys| - 1];
      SumAppend(xs, init);
      assert (xs + ys)[..|xs + ys| - 1] == xs + init;
    }
  }

  /** The sum adds the first element to the sum of the rest, as the left-to-right loop of `sum` does. */
  lemma SumFirst(xs: seq<int>)
    requires xs != []
    ensures Sum(xs) == xs[0] + Sum(xs[1..])
  {
    SumAppend([xs[0]], xs[1..]);
    assert [xs[0]] + xs[1..] == xs;
  }
}
