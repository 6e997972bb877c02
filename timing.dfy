/** The arithmetic kernels of `number7.py` (factorial and Fibonacci, each
    recursive and iterative, and a triple-loop matrix product) and the
    bookkeeping of its timing decorator: a dictionary from function name to
    the list of recorded elapsed times. The clock itself is not modelled: an
    elapsed time is a value the caller supplies. */
module TimingKernels {
  import opened Wrappers

  /** `factorial_recursive(n)`: 1 for n <= 1, otherwise n times the
      factorial of n - 1; never below 1. */
  function FactorialRecursive(n: int): (r: int)
    ensures r >= 1
  {
    if n <= 1 then 1 else n * FactorialRecursive(n - 1)
  }

  /** `factorial_iterative(n)`: multiplies 1, 2, ..., n into an accumulator;
      agrees with the recursive definition for every integer. */
  method FactorialIterative(n: int) returns (result: int)
    ensures result == FactorialRecursive(n)
  {
    result := 1;
    var i := 1;
    while i <= n
      invariant 1 <= i <= if n >= 0 then n + 1 else 1
      invariant result == FactorialRecursive(i - 1)
    {
      assert i >= 2 ==> FactorialRecursive(i) == i * FactorialRecursive(i - 1);
      result := result * i;
      i := i + 1;
    }
  }

  /** `fibonacci_recursive(n)`: n itself for n <= 1 (negative inputs
      included), otherwise the sum of the two previous numbers. */
  function FibonacciRecursive(n: int): (r: int)
    ensures n >= 0 ==> r >= 0
    ensures n >= 2 ==> r >= 1
  {
    if n <= 1 then n else FibonacciRecursive(n - 1) + FibonacciRecursive(n - 2)
  }

  /** `fibonacci_iterative(n)`: the pair (a, b) walks along the sequence;
      agrees with the recursive definition for every integer. */
  method FibonacciIterative(n: int) returns (r: int)
    ensures r == FibonacciRecursive(n)
    ensures n <= 1 ==> r == n
  {
    if n <= 1 {
      return n;
    }
    var a, b := 0, 1;
    var k := 2;
    while k <= n
      invariant 2 <= k <= n + 1
      invariant a == FibonacciRecursive(k - 2) && b == FibonacciRecursive(k - 1)
    {
      a, b := b, a + b;
      k := k + 1;
    }
    return b;
  }

  /** The entry [i][j] of the product: the sum over k < m of (i*k)*(k*j). */
  function ProductSum(i: int, j: int, m: nat): int {
    if m == 0 then 0 else ProductSum(i, j, m - 1) + (i * (m - 1)) * ((m - 1) * j)
  }

  /** 0*0 + 1*1 + ... + (m-1)*(m-1). */
  function SumOfSquares(m: nat): nat {
    if m == 0 then 0 else SumOfSquares(m - 1) + (m - 1) * (m - 1)
  }

  /** Each entry of the product is i*j times the sum of the first m squares. */
  lemma {:induction false} ProductSumFactors(i: int, j: int, m: nat)
    ensures ProductSum(i, j, m) == i * j * SumOfSquares(m)
  {
    if m > 0 {
      ProductSumFactors(i, j, m - 1);
      var k := m - 1;
      ProductTerm(i, j, k, SumOfSquares(m - 1));
    }
  }

  /** One step of the induction: (i*k)*(k*j) adds i*j*k^2. */
  lemma ProductTerm(i: int, j: int, k: int, s: int)
    ensures i * j * s + (i * k) * (k * j) == i * j * (s + k * k)
  {
    assert (i * k) * (k * j) == (i * j) * (k * k);
    assert (i * j) * (s + k * k) == (i * j) * s + (i * j) * (k * k);
  }

  /** The sum of the first m squares is (m-1)m(2m-1)/6. */
  lemma {:induction false} SumOfSquaresClosedForm(m: nat)
    ensures 6 * SumOfSquares(m) == (m - 1) * m * (2 * m - 1)
  {
    if m > 0 {
      SumOfSquaresClosedForm(m - 1);
      CubicStep(m - 1);
    }
  }

  /** k(k+1)(2k+1) = (k-1)k(2k-1) + 6k^2. */
  lemma CubicStep(k: int)
    ensures k * (k + 1) * (2 * k + 1) == (k - 1) * k * (2 * k - 1) + 6 * (k * k)
  {
    assert k * (k + 1) * (2 * k + 1) == 2 * k * k * k + 3 * k * k + k;
    assert (k - 1) * k * (2 * k - 1) == 2 * k * k * k - 3 * k * k + k;
  }

  /** Cells before (i, j) in row-major order hold their final value, the
      others are still 0. */
  ghost predicate FilledUpTo(result: array2<int>, n: nat, i: int, j: int)
    reads result
    requires result.Length0 == n && result.Length1 == n
  {
    forall a, b :: 0 <= a < n && 0 <= b < n ==>
      result[a, b] == if a < i || (a == i && b < j) then ProductSum(a, b, n) else 0
  }

  /** `matrix_operations(size)`: builds the size-by-size matrix of i*j and
      multiplies it by itself with three nested loops accumulating into a
      zeroed result; a negative size gives an empty matrix. */
  method MatrixOperations(size: int) returns (result: array2<int>)
    ensures size >= 0 ==> result.Length0 == size && result.Length1 == size
    ensures size < 0 ==> result.Length0 == 0 && result.Length1 == 0
    ensures forall i, j :: 0 <= i < result.Length0 && 0 <= j < result.Length1 ==>
              result[i, j] == ProductSum(i, j, result.Length0)
  {
    var n: nat := if size < 0 then 0 else size;
    var matrix := new int[n, n]((i, j) => i * j);
    result := new int[n, n]((i, j) => 0);
    var i := 0;
    while i < n
      modifies result
      invariant 0 <= i <= n
      invariant FilledUpTo(result, n, i, 0)
    {
      var j := 0;
      while j < n
        modifies result
        invariant 0 <= j <= n
        invariant FilledUpTo(result, n, i, j)
      {
        var k := 0;
        while k < n
          modifies result
          invariant 0 <= k <= n
          invariant result[i, j] == ProductSum(i, j, k)
          invariant forall a, b :: 0 <= a < n && 0 <= b < n && (a != i || b != j) ==>
                      result[a, b] == if a < i || (a == i && b < j) then ProductSum(a, b, n) else 0
        {
          result[i, j] := result[i, j] + matrix[i, k] * matrix[k, j];
          k := k + 1;
        }
        j := j + 1;
      }
      i := i + 1;
    }
  }

  /** What `get_stats` reports: `{}`, the entry of one function, or the call
      count of every function. Sums, averages, minima and maxima of the
      times are not modelled. */
  datatype Stats =
    | NoStats
    | FunctionStats(functionName: string, callCount: nat, allTimes: seq<real>)
    | AllStats(callCounts: map<string, nat>)

  /** A Python string argument that is truthy: given and non-empty. */
  predicate Given(name: Option<string>) {
    name.Some? && name.value != ""
  }

  /** The times recorded for `name` in a timing map, empty when there are none. */
  function TimesOf(data: map<string, seq<real>>, name: string): seq<real> {
    if name in data then data[name] else []
  }

  /** `after` is `before` with `count` entries appended under `name` and every
      other function's record as it was. */
  ghost predicate Appended(before: map<string, seq<real>>, after: map<string, seq<real>>, name: string, count: nat) {
    && after.Keys == before.Keys + {name}
    && |TimesOf(after, name)| == |TimesOf(before, name)| + count
    && TimesOf(after, name)[..|TimesOf(before, name)|] == TimesOf(before, name)
    && forall other :: other in before && other != name ==> after[other] == before[other]
  }

  /** Appending twice under one name appends the two counts. */
  lemma AppendedTwice(a: map<string, seq<real>>, b: map<string, seq<real>>, c: map<string, seq<real>>,
                      name: string, m: nat, n: nat)
    requires Appended(a, b, name, m) && Appended(b, c, name, n)
    ensures Appended(a, c, name, m + n)
  {
    var ta, tb, tc := TimesOf(a, name), TimesOf(b, name), TimesOf(c, name);
    assert tc[..|ta|] == tc[..|tb|][..|ta|];
  }

  class TimerDecorator {
    const verbose: bool
    const storeResults: bool
    /** `timing_data`: the elapsed times recorded for each function name. */
    var timingData: map<string, seq<real>>

    /** A list is only ever created together with its first entry. */
    ghost predicate Valid()
      reads this
    {
      forall name :: name in timingData ==> |timingData[name]| > 0
    }

    /** `TimerDecorator(verbose=..., store_results=...)`: nothing recorded yet. */
    constructor (verbose: bool := true, storeResults: bool := true)
      ensures this.verbose == verbose && this.storeResults == storeResults
      ensures timingData == map[] && Valid()
    {
      this.verbose := verbose;
      this.storeResults := storeResults;
      timingData := map[];
    }

    /** The `finally` block of the wrapper: with `store_results` set, one
        entry is appended under the function's name, creating the list if
        needed; otherwise nothing is recorded. */
    method Record(funcName: string, elapsed: real)
      requires Valid()
      modifies this
      ensures Valid()
      ensures storeResults ==> timingData == old(timingData)[funcName := TimesOf(old(timingData), funcName) + [elapsed]]
      ensures storeResults ==> Appended(old(timingData), timingData, funcName, 1)
      ensures !storeResults ==> timingData == old(timingData)
    {
      if storeResults {
        if funcName !in timingData {
          timingData := timingData[funcName := []];
        }
        timingData := timingData[funcName := timingData[funcName] + [elapsed]];
      }
    }

    /** The wrapper around one call: the function's outcome, a value or a
        raised exception, is passed on unchanged, and the call is recorded in
        either case. */
    method Wrap<T>(funcName: string, outcome: T, elapsed: real) returns (r: T)
      requires Valid()
      modifies this
      ensures r == outcome
      ensures Valid()
      ensures storeResults ==> timingData == old(timingData)[funcName := TimesOf(old(timingData), funcName) + [elapsed]]
      ensures !storeResults ==> timingData == old(timingData)
    {
      Record(funcName, elapsed);
      r := outcome;
    }

    /** `get_stats(func_name)`: `{}` when nothing is recorded or the named
        function is absent; the named function's count and times; or, with
        no name, the count of every recorded function. */
    function GetStats(funcName: Option<string>): (r: Stats)
      reads this
      ensures r == NoStats <==> timingData == map[] || (Given(funcName) && funcName.value !in timingData)
      ensures r.FunctionStats? <==> timingData != map[] && Given(funcName) && funcName.value in timingData
      ensures r.FunctionStats? ==> r.functionName == funcName.value
                                   && r.callCount == |timingData[funcName.value]|
                                   && r.allTimes == timingData[funcName.value]
      ensures r.AllStats? ==> r.callCounts.Keys == timingData.Keys
                              && forall name :: name in r.callCounts ==> r.callCounts[name] == |timingData[name]|
    {
      if timingData == map[] then NoStats
      else if Given(funcName) then
        if funcName.value !in timingData then NoStats
        else FunctionStats(funcName.value, |timingData[funcName.value]|, timingData[funcName.value])
      else AllStats(map name | name in timingData :: |timingData[name]|)
    }

    /** `reset_stats(func_name)`: removes only the named function's entry, if
        any; with no name, empties the whole record. */
    method ResetStats(funcName: Option<string>)
      requires Valid()
      modifies this
      ensures Valid()
      ensures Given(funcName) ==> timingData == old(timingData) - {funcName.value}
      ensures !Given(funcName) ==> timingData == map[]
    {
      if Given(funcName) {
        if funcName.value in timingData {
          timingData := timingData - {funcName.value};
        }
      } else {
        timingData := map[];
      }
    }
  }

  /** The number of wrapped calls one call of the decorated recursive
      factorial makes: the recursion goes through the decorated name, so
      every level is timed. */
  function FactorialCalls(n: int): (c: nat)
    ensures c == if n <= 1 then 1 else n
  {
    if n <= 1 then 1 else 1 + FactorialCalls(n - 1)
  }

  /** The number of wrapped calls one call of the decorated recursive
      Fibonacci makes. */
  function FibonacciCalls(n: int): nat {
    if n <= 1 then 1 else 1 + FibonacciCalls(n - 1) + FibonacciCalls(n - 2)
  }

  /** The decorated Fibonacci makes 2*F(n+1) - 1 timed calls, so its log
      grows as fast as the Fibonacci numbers themselves. */
  lemma {:induction false} FibonacciCallsClosedForm(n: nat)
    ensures FibonacciCalls(n) == 2 * FibonacciRecursive(n + 1) - 1
  {
    if n >= 2 {
      FibonacciCallsClosedForm(n - 1);
      FibonacciCallsClosedForm(n - 2);
    }
  }

  /** The decorated `factorial_recursive`: the value of the plain recursion,
      and one entry per level of recursion appended under its name (the
      innermost call finishes, and records, first). */
  method TimedFactorial(timer: TimerDecorator, n: int, elapsed: real) returns (r: int)
    requires timer.Valid()
    modifies timer
    decreases if n <= 1 then 0 else n
    ensures timer.Valid()
    ensures r == FactorialRecursive(n)
    ensures timer.storeResults ==> Appended(old(timer.timingData), timer.timingData, "factorial_recursive", FactorialCalls(n))
    ensures !timer.storeResults ==> timer.timingData == old(timer.timingData)
  {
    if n <= 1 {
      r := 1;
    } else {
      var sub := TimedFactorial(timer, n - 1, elapsed);
      r := n * sub;
    }
    ghost var mid := timer.timingData;
    timer.Record("factorial_recursive", elapsed);
    if timer.storeResults {
      if n <= 1 {
        assert old(timer.timingData) == mid;
      } else {
        AppendedTwice(old(timer.timingData), mid, timer.timingData, "factorial_recursive", FactorialCalls(n - 1), 1);
      }
    }
  }

  /** The decorated `fibonacci_recursive`: the value of the plain recursion,
      and one entry per call in the whole call tree. */
  method TimedFibonacci(timer: TimerDecorator, n: int, elapsed: real) returns (r: int)
    requires timer.Valid()
    modifies timer
    decreases if n <= 1 then 0 else n
    ensures timer.Valid()
    ensures r == FibonacciRecursive(n)
    ensures timer.storeResults ==> Appended(old(timer.timingData), timer.timingData, "fibonacci_recursive", FibonacciCalls(n))
    ensures !timer.storeResults ==> timer.timingData == old(timer.timingData)
  {
    if n <= 1 {
      r := n;
    } else {
      ghost var start := timer.timingData;
      var a := TimedFibonacci(timer, n - 1, elapsed);
      ghost var first := timer.timingData;
      var b := TimedFibonacci(timer, n - 2, elapsed);
      r := a + b;
      if timer.storeResults {
        AppendedTwice(start, first, timer.timingData, "fibonacci_recursive", FibonacciCalls(n - 1), FibonacciCalls(n - 2));
      }
    }
    ghost var mid := timer.timingData;
    timer.Record("fibonacci_recursive", elapsed);
    if timer.storeResults {
      if n <= 1 {
        assert old(timer.timingData) == mid;
      } else {
        AppendedTwice(old(timer.timingData), mid, timer.timingData, "fibonacci_recursive",
                      FibonacciCalls(n - 1) + FibonacciCalls(n - 2), 1);
      }
    }
  }

  /** The demonstration's first row: factorial(5) = 120 from the timed
      recursive function and from the loop of `factorial_iterative` itself
      (undecorated), and the shared timer then holds five entries for the
      recursive factorial. */
  method FactorialDemonstration() returns (recursive: int, iterative: int, count: nat, stats: Stats)
    ensures recursive == iterative == 120
    ensures count == 5
    ensures stats.FunctionStats? && stats.functionName == "factorial_recursive" && stats.callCount == 5
  {
    var timer := new TimerDecorator(true, true);
    recursive := TimedFactorial(timer, 5, 0.0);
    iterative := FactorialIterative(5);
    count := |TimesOf(timer.timingData, "factorial_recursive")|;
    stats := timer.GetStats(Some("factorial_recursive"));
  }
}
