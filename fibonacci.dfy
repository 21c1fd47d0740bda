/**
 * The three Fibonacci functions of the repository: the checked one of
 * `Archive/fibonacci.py`, the lenient one of `fibonacci.py` and the
 * list builder of `main.py`, each proved against the recurrence.
 */
module FibonacciSpec {
  /** F(0) = 0, F(1) = 1, F(k) = F(k-1) + F(k-2). */
  function Fib(n: nat): nat {
    if n < 2 then n else Fib(n - 1) + Fib(n - 2)
  }

  /** The recurrence, for a term with two predecessors. */
  lemma FibUnfold(n: nat)
    requires n >= 2
    ensures Fib(n) == Fib(n - 1) + Fib(n - 2)
  {
  }

  /** The sequence never decreases. */
  lemma {:induction false} FibMonotone(m: nat, n: nat)
    requires m <= n
    ensures Fib(m) <= Fib(n)
    decreases n - m
  {
    if m < n {
      FibMonotone(m, n - 1);
      assert Fib(n - 1) <= Fib(n) by {
        if n >= 2 {
          assert Fib(n) == Fib(n - 1) + Fib(n - 2);
        }
      }
    }
  }

  /** The values the archived script checks: 2→1, 3→2, 5→5, 10→55, 20→6765. */
  lemma SmokeValues()
    ensures Fib(0) == 0 && Fib(1) == 1 && Fib(2) == 1 && Fib(3) == 2
    ensures Fib(5) == 5 && Fib(10) == 55 && Fib(20) == 6765
  {
    assert Fib(2) == 1;
    assert Fib(3) == 2;
    assert Fib(4) == 3;
    assert Fib(5) == 5;
    assert Fib(6) == 8;
    assert Fib(7) == 13;
    assert Fib(8) == 21;
    assert Fib(9) == 34;
    assert Fib(10) == 55;
    assert Fib(11) == 89;
    assert Fib(12) == 144;
    assert Fib(13) == 233;
    assert Fib(14) == 377;
    assert Fib(15) == 610;
    assert Fib(16) == 987;
    assert Fib(17) == 1597;
    assert Fib(18) == 2584;
    assert Fib(19) == 4181;
  }
}

module ArchiveFibonacci {
  import opened Wrappers
  import opened FibonacciSpec

  /** The argument as Python sees it: an `int` (a `bool` counts as one) or any other object. */
  datatype Argument = IntArg(value: int) | NonInt

  /** The exceptions the function raises. */
  datatype FibError = TypeError | ValueError

  /**
   * `fibonacci(n)` of `Archive/fibonacci.py`: `TypeError` for a non-int,
   * `ValueError` for a negative int, otherwise F(n) by two accumulators.
   */
  method Fibonacci(n: Argument) returns (r: Result<nat, FibError>)
    ensures n.NonInt? <==> r == Err(TypeError)
    ensures n.IntArg? && n.value < 0 <==> r == Err(ValueError)
    ensures n.IntArg? && n.value >= 0 ==> r == Ok(Fib(n.value))
  {
    if n.NonInt? {
      return Err(TypeError);
    }
    if n.value < 0 {
      return Err(ValueError);
    }
    if n.value == 0 {
      return Ok(0);
    }
    if n.value == 1 {
      return Ok(1);
    }
    var a, b := 0, 1;
    var k := 1;
    while k < n.value
      invariant 1 <= k <= n.value
      invariant a == Fib(k - 1) && b == Fib(k)
    {
      a, b := b, a + b;
      k := k + 1;
    }
    return Ok(b);
  }
}

module LenientFibonacci {
  import opened FibonacciSpec
  import ArchiveFibonacci
  import opened Wrappers

  /** `fibonacci(n)` of `fibonacci.py`: 0 for any n <= 0, otherwise F(n). */
  method Fibonacci(n: int) returns (r: nat)
    ensures n <= 0 ==> r == 0
    ensures n >= 0 ==> r == Fib(n)
  {
    if n <= 0 {
      return 0;
    } else if n == 1 {
      return 1;
    }
    var a, b := 0, 1;
    var k := 1;
    while k < n
      invariant 1 <= k <= n
      invariant a == Fib(k - 1) && b == Fib(k)
    {
      a, b := b, a + b;
      k := k + 1;
    }
    return b;
  }

  /** On every non-negative int the lenient and the checked functions agree; on a negative one only the checked one raises. */
  method AgreesWithArchive(n: int) returns (lenient: nat, checked: Result<nat, ArchiveFibonacci.FibError>)
    ensures n >= 0 ==> checked == Ok(lenient)
    ensures n < 0 ==> lenient == 0 && checked == Err(ArchiveFibonacci.ValueError)
  {
    lenient := Fibonacci(n);
    checked := ArchiveFibonacci.Fibonacci(ArchiveFibonacci.IntArg(n));
  }
}

module FibonacciList {
  import opened FibonacciSpec

  /** `fibonacci(n)` of `main.py`: the list F(0), ..., F(n-1), empty for n <= 0. */
  method Fibonacci(n: int) returns (s: seq<nat>)
    ensures |s| == if n <= 0 then 0 else n
    ensures forall i :: 0 <= i < |s| ==> s[i] == Fib(i)
    ensures forall i :: 2 <= i < |s| ==> s[i] == s[i - 1] + s[i - 2]
  {
    assert Fib(0) == 0 && Fib(1) == 1;
    if n <= 0 {
      return [];
    } else if n == 1 {
      return [0];
    } else if n == 2 {
      return [0, 1];
    }
    s := [0, 1];
    var i := 2;
    while i < n
      invariant 2 <= i <= n && |s| == i
      invariant forall j :: 0 <= j < i ==> s[j] == Fib(j)
    {
      var next := s[i - 1] + s[i - 2];
      ExtendPrefix(s);
      s := s + [next];
      i := i + 1;
    }
    PrefixRecurrence(s);
  }

  /** The first terms, extended by the sum of the last two, are the first terms with one more. */
  lemma ExtendPrefix(s: seq<nat>)
    requires |s| >= 2
    requires forall j :: 0 <= j < |s| ==> s[j] == Fib(j)
    ensures var t := s + [s[|s| - 1] + s[|s| - 2]];
      forall j :: 0 <= j < |t| ==> t[j] == Fib(j)
  {
    FibUnfold(|s|);
  }

  /** In a list of the first terms, each term from index 2 on is the sum of the two before it. */
  lemma PrefixRecurrence(s: seq<nat>)
    requires forall j :: 0 <= j < |s| ==> s[j] == Fib(j)
    ensures forall i :: 2 <= i < |s| ==> s[i] == s[i - 1] + s[i - 2]
  {
    forall i | 2 <= i < |s|
      ensures s[i] == s[i - 1] + s[i - 2]
    {
      FibUnfold(i);
    }
  }

  /** The list for n is a prefix of the list for n + 1, which adds F(n). */
  method PrefixOfNext(n: nat) returns (shorter: seq<nat>, longer: seq<nat>)
    ensures longer == shorter + [Fib(n)]
  {
    shorter := Fibonacci(n);
    longer := Fibonacci(n + 1);
  }

  /** The small cases of the source: [], [0] and [0, 1]. */
  method SmallCases() returns (none: seq<nat>, one: seq<nat>, two: seq<nat>)
    ensures none == [] && one == [0] && two == [0, 1]
  {
    none := Fibonacci(0);
    one := Fibonacci(1);
    two := Fibonacci(2);
  }
}
