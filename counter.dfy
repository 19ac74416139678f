/**
 * The wrapping counter of lib/counter.js: each `counter()` call makes a new
 * closure over its own `current`; calling the closure returns `current` and
 * then advances it, back to 0 after `max`.
 */
module Counter {

  /** `counter.max`, 2^31 - 1. */
  const Max: int := 0x7FFF_FFFF
  /** How many distinct values a counter hands out before it repeats, 2^31. */
  const Period: int := 0x8000_0000

  /** The value `current` takes after a call that returned `n`. */
  function Step(n: int): (r: int)
    requires 0 <= n <= Max
    ensures 0 <= r <= Max
    ensures r == (n + 1) % Period
  {
    if n == Max then 0 else n + 1
  }

  /** The value returned by the `k`-th call (counting from 0) on a fresh counter. */
  function Drawn(k: nat): (r: int)
    ensures 0 <= r <= Max
  {
    if k == 0 then 0 else Step(Drawn(k - 1))
  }

  /** Taking the remainder before or after adding one gives the same step. */
  lemma ModSucc(n: nat)
    ensures (n % Period + 1) % Period == (n + 1) % Period
  {
    var q, m := n / Period, n % Period;
    assert n == q * Period + m;
    if m == Max {
      assert n + 1 == (q + 1) * Period;
    } else {
      assert n + 1 == q * Period + (m + 1);
    }
  }

  /** The `k`-th call on a fresh counter returns `k` modulo 2^31. */
  lemma {:induction false} DrawnIsModular(k: nat)
    ensures Drawn(k) == k % Period
  {
    if k > 0 {
      DrawnIsModular(k - 1);
      ModSucc(k - 1);
    }
  }

  /** One `counter()` closure. */
  class Counter {
    var current: int
    /** How many times the closure has been called. */
    ghost var calls: nat

    ghost predicate Valid()
      reads this
    {
      0 <= current <= Max && current == Drawn(calls)
    }

    /** `counter()`: a fresh closure, `current = 0`. */
    constructor ()
      ensures Valid() && calls == 0 && current == 0
    {
      current := 0;
      calls := 0;
    }

    /** `count()`: returns the value held before the call, then wraps or increments. */
    method Next() returns (result: int)
      requires Valid()
      modifies this
      ensures Valid()
      ensures calls == old(calls) + 1
      ensures result == old(current) == Drawn(old(calls))
      ensures 0 <= result <= Max
      ensures result == Max ==> current == 0
      ensures result < Max ==> current == result + 1
    {
      result := current;
      if current == Max {
        current := 0;
      } else {
        current := current + 1;
      }
      calls := calls + 1;
    }
  }

  /**
   * Two counters do not share state: drawing twice from one and once from the
   * other gives 0, 1 and 0.
   */
  method IndependentCounters() returns (x: int, y: int, z: int)
    ensures x == 0 && y == 1 && z == 0
  {
    var a := new Counter();
    var b := new Counter();
    x := a.Next();
    y := a.Next();
    z := b.Next();
  }

  /** After handing out `Max`, a counter starts over at 0. */
  lemma {:induction false} WrapsAfterMax(k: nat)
    ensures Drawn(k) == Max <==> k % Period == Max
    ensures Drawn(k) == Max ==> Drawn(k + 1) == 0
  {
    DrawnIsModular(k);
  }
}
