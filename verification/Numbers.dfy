/** Small arithmetic the models share. */
module Numbers {

  function Min(a: nat, b: nat): nat {
    if a <= b then a else b
  }

  /** A counter that stops at zero. */
  function Pred(n: nat): nat {
    if n == 0 then 0 else n - 1
  }
}
