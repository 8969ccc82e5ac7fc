/** The CPU-bound demo task: the list of the Fibonacci numbers from
    `helper(0)` up to `helper(n)`, each computed by plain recursion. */
module CpuTasks {

  /** `helper`. */
  function Fib(i: nat): nat
  {
    if i == 0 || i == 1 then i else Fib(i - 1) + Fib(i - 2)
  }

  /** What `cpu_heavy_task(n)` returns: `n + 1` entries, none for a
      negative `n` (`range(n + 1)` is then empty). */
  function Fibs(n: int): (r: seq<nat>)
    ensures |r| == if n < 0 then 0 else n + 1
    ensures forall i :: 0 <= i < |r| ==> r[i] == Fib(i)
  {
    if n < 0 then [] else seq(n + 1, i requires 0 <= i => Fib(i))
  }

  /** `cpu_heavy_task`. */
  method CpuHeavyTask(n: int) returns (res: seq<nat>)
    ensures res == Fibs(n)
  {
    res := [];
    var count := if n < 0 then 0 else n + 1;
    for i := 0 to count
      invariant res == Fibs(i - 1)
    {
      var fibo := Fib(i);
      FibsPrefix(i - 1);
      res := res + [fibo];
    }
  }

  /** The list for `n` is the start of the list for `n + 1`. */
  lemma FibsPrefix(n: int)
    ensures Fibs(n) <= Fibs(n + 1)
    ensures n >= -1 ==> Fibs(n + 1) == Fibs(n) + [Fib(n + 1)]
  {
  }

  /** Past the first two entries, each is the sum of the two before it. */
  lemma FibsRecurrence(n: int, i: nat)
    requires 2 <= i < |Fibs(n)|
    ensures Fibs(n)[i] == Fibs(n)[i - 1] + Fibs(n)[i - 2]
  {
  }

  /** The Fibonacci numbers never decrease, so neither does the list. */
  lemma {:induction false} FibMonotone(i: nat, j: nat)
    requires i <= j
    ensures Fib(i) <= Fib(j)
    decreases j
  {
    if i < j {
      FibMonotone(i, j - 1);
      FibStep(j - 1);
    }
  }

  lemma FibStep(i: nat)
    ensures Fib(i) <= Fib(i + 1)
  {
    if i >= 1 {
      assert Fib(i + 1) == Fib(i) + Fib(i - 1);
    }
  }

  lemma FibsSorted(n: int)
    ensures forall i, j :: 0 <= i <= j < |Fibs(n)| ==> Fibs(n)[i] <= Fibs(n)[j]
  {
    forall i, j | 0 <= i <= j < |Fibs(n)|
      ensures Fibs(n)[i] <= Fibs(n)[j]
    {
      FibMonotone(i, j);
    }
  }
}
