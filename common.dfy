/** Conventions shared by the whole model: the Python exceptions the gaze
    pipeline can raise, result wrappers, and Python's one-argument `round`. */
module Common {

  /** The Python exceptions raised along the modelled paths. */
  datatype Error =
    | ValueError(message: string)
    | TypeError
    | IndexError
    | KeyError
    | AttributeError
    | ZeroDivisionError

  /** A value, or the exception raised instead of returning one. */
  datatype Result<+T> = Ok(value: T) | Err(error: Error)

  /** Normal completion of a procedure that returns nothing, or its exception. */
  datatype Outcome = Pass | Fail(error: Error)

  datatype Option<+T> = None | Some(value: T)

  /** An argument meant as a member of an enumeration: one of its members,
      or any other object a caller may pass where Python does not check. */
  datatype Tagged<+E> = Member(member: E) | Foreign

  function Min(a: int, b: int): int { if a <= b then a else b }

  /** Python's `round(r)`: the nearest integer, a tie going to the even
      neighbour. */
  function Round(r: real): (n: int)
    ensures -0.5 <= r - n as real <= 0.5
    ensures (r - n as real == 0.5 || n as real - r == 0.5) ==> n % 2 == 0
  {
    var f := r.Floor;
    var d := r - f as real;
    if d < 0.5 then f
    else if d > 0.5 then f + 1
    else if f % 2 == 0 then f else f + 1
  }

  /** The two properties in `Round`'s contract pin the result down: no other
      integer is within one half of `r` and even on a tie. */
  lemma RoundIsUnique(r: real, n: int)
    requires -0.5 <= r - n as real <= 0.5
    requires (r - n as real == 0.5 || n as real - r == 0.5) ==> n % 2 == 0
    ensures Round(r) == n
  {
    var m := Round(r);
    assert -1.0 <= (n - m) as real <= 1.0;
  }

  /** Rounding the sum of a value and an integer differs from rounding the
      value first by at most one: a tie may go to a different even neighbour. */
  lemma RoundShift(r: real, k: int)
    ensures Round(r + k as real) - Round(r) - k in {-1, 0, 1}
  {
    var a, b := Round(r + k as real), Round(r);
    assert -1.0 <= (a - b - k) as real <= 1.0;
  }

  /** An exact integer rounds to itself. */
  lemma RoundOfInteger(k: int)
    ensures Round(k as real) == k
  {
    RoundIsUnique(k as real, k);
  }
}
