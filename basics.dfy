/** Types shared by the monitor's components. */
module Basics {

  /** One element of a Uint8Array, as filled by the analyser's byte spectrum. */
  type Byte = x: int | 0 <= x < 256

  /** The exceptions thrown by the core; each is raised synchronously and never caught there. */
  datatype Error =
    | EmptyArray      // getIndexOfMax was given an array of length zero
    | AlreadyActive   // begin on a time-series chart that is already active
    | NotActive       // drawPoint on a time-series chart that is not active
    | TimeOverLimit   // drawPoint with a time beyond the chart's time upper limit

  datatype Option<T> = None | Some(value: T)

  /** The value of a call that either returns or throws one of the errors above. */
  datatype Result<T> = Ok(value: T) | Err(error: Error)

  predicate StrictlyIncreasing(s: seq<real>) {
    forall i, j :: 0 <= i < j < |s| ==> s[i] < s[j]
  }

  /** Multiplying by a non-negative factor keeps an inequality. */
  lemma MulMonotone(a: real, x: real, y: real)
    requires a >= 0.0 && x <= y
    ensures a * x <= a * y
  {
    assert a * y - a * x == a * (y - x);
    assert a * (y - x) >= 0.0;
  }
}
