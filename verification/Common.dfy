/** Small vocabulary shared by every module of the project. */
module Common {

  /** A point in time (or a length of time), in seconds. */
  type Time = int

  datatype Option<+T> = None | Some(value: T)

  /** The outcome of a call that may raise. */
  datatype Result<+T, +E> = Ok(value: T) | Err(error: E) {
    predicate IsFailure() { Err? }

    function PropagateFailure<U>(): Result<U, E>
      requires Err?
    {
      Err(error)
    }

    function Extract(): T
      requires Ok?
    {
      value
    }
  }

  function Max(a: int, b: int): int { if a < b then b else a }

  function Min(a: int, b: int): int { if a < b then a else b }

  function Pow2(n: nat): nat { if n == 0 then 1 else 2 * Pow2(n - 1) }

  lemma {:induction false} Pow2Grows(n: nat)
    ensures Pow2(n) >= 1 && (n >= 6 ==> Pow2(n) >= 64)
  {
    if n > 0 { Pow2Grows(n - 1); }
  }

  /** SQL's GREATEST over two nullable values: NULL is ignored. */
  function Greatest(a: Option<Time>, b: Option<Time>): Option<Time> {
    match (a, b)
    case (None, _) => b
    case (_, None) => a
    case (Some(x), Some(y)) => Some(Max(x, y))
  }

  /** `b` is at least as late as `a`, where NULL means "no time yet". */
  predicate NotEarlier(a: Option<Time>, b: Option<Time>) {
    a.Some? ==> b.Some? && a.value <= b.value
  }

  ghost predicate Distinct<T(!new)>(s: seq<T>) {
    forall i, j :: 0 <= i < j < |s| ==> s[i] != s[j]
  }
}
