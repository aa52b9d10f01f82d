/** Stock option and result datatypes, used where the source returns None or raises, and a little arithmetic. */
module Prelude {
  datatype Option<+T> = None | Some(value: T) {
    function GetOr(default: T): T {
      match this
      case Some(v) => v
      case None => default
    }
  }

  datatype Result<+T, +E> = Ok(value: T) | Err(error: E)

  lemma {:induction false} ConcatAssoc<T>(a: seq<T>, b: seq<T>, c: seq<T>)
    ensures a + b + c == a + (b + c)
  {
  }

  /** n * x, by repeated addition. */
  function Times(n: nat, x: nat): nat { if n == 0 then 0 else Times(n - 1, x) + x }

  lemma {:induction false} TimesIsProduct(n: nat, x: nat)
    ensures Times(n, x) == n * x
  {
    if n == 0 {
    } else {
      TimesIsProduct(n - 1, x);
      assert n * x == (n - 1) * x + x;
    }
  }
}
