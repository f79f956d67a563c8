/** Failure-carrying results shared by every module of the model. */
module Prelude {

  datatype Option<+T> = None | Some(value: T)

  datatype Result<+T, +E> = Ok(value: T) | Err(error: E)

  function Min(a: int, b: int): int { if a <= b then a else b }

  function Max(a: int, b: int): int { if a >= b then a else b }

  function One(b: bool): nat { if b then 1 else 0 }

  /** What holds at `i` and is kept by every step up to `n` holds at `n`. */
  lemma {:induction false} StaysTrue(holds: nat -> bool, i: nat, n: nat)
    requires i <= n && holds(i) && forall k: nat | i <= k < n && holds(k) :: holds(k + 1)
    ensures holds(n)
    decreases n
  {
    if i < n {
      StaysTrue(holds, i, n - 1);
    }
  }

  /** Some number above all of a set. */
  lemma {:induction false} AboveAll(keys: set<int>) returns (w: int)
    ensures forall k | k in keys :: k < w
    decreases |keys|
  {
    w := 0;
    if k :| k in keys {
      var rest := keys - {k};
      w := AboveAll(rest);
      w := Max(w, k + 1);
      assert forall j | j in keys :: j == k || j in rest;
    }
  }
}
