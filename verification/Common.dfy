/** Types and arithmetic shared by the modules. */
module Common {

  datatype Option<+T> = None | Some(value: T)

  /** The exceptions the adapter raises. Its `except` clauses name the first four together;
      `Stopped` is `MotionStopped`, and `OtherError` any exception that no clause names, such
      as an `OSError` that is no connection or time-out error, or a failed assertion. */
  datatype Error = ConnectionError | RuntimeError | TimeoutError | ValueError | Stopped | OtherError

  predicate Caught(e: Error) { e != Stopped && e != OtherError }

  lemma CaughtIff(e: Error)
    ensures Caught(e) <==> e in {ConnectionError, RuntimeError, TimeoutError, ValueError}
  {}

  /** An exception out of the transport or an observation; these never raise `MotionStopped`. */
  type Trouble = e: Error | e != Stopped witness RuntimeError

  datatype Result<+T> = Ok(value: T) | Err(error: Error)

  function Abs(x: real): real { if x < 0.0 then -x else x }

  function Min(x: real, y: real): real { if x <= y then x else y }

  function Max(x: real, y: real): real { if x >= y then x else y }

  lemma AbsIs(x: real)
    ensures Abs(x) >= x && Abs(x) >= -x && (Abs(x) == x || Abs(x) == -x)
  {}

  lemma MinMaxAre(x: real, y: real)
    ensures Min(x, y) <= x && Min(x, y) <= y && Max(x, y) >= x && Max(x, y) >= y && Min(x, y) + Max(x, y) == x + y
  {}
}
