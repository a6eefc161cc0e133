/** Option and Result values shared by every part of the model. */
module Common {

  /** A value that may be absent (a warm-up VaR entry, a trader's "no trade"). */
  datatype Option<T> = None | Some(value: T)

  /** The outcome of an operation the source may abort with an exception. */
  datatype Result<T, E> = Ok(value: T) | Err(error: E)

  function Min(a: int, b: int): int { if a <= b then a else b }

  function Max(a: int, b: int): int { if a >= b then a else b }

  function MaxReal(a: real, b: real): real { if a >= b then a else b }

  function Abs(x: real): real { if x < 0.0 then -x else x }

  /** The sign of a factor of a product with a positive number. */
  lemma FactorSign(a: real, p: real)
    requires p > 0.0
    ensures a * p >= 0.0 ==> a >= 0.0
    ensures a * p > 0.0 ==> a > 0.0
  {
  }
}
