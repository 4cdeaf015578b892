/** Failure-compatible datatypes shared by every chaincode model.

    A chaincode invocation either succeeds or returns `shim.Error`; the
    kinds of `Error` below name the reasons the handlers fail for. */
module Wrappers {

  datatype Option<+T> = None | Some(value: T) {

    function GetOr(default: T): T
    {
      match this
      case Some(v) => v
      case None => default
    }
  }

  /** Why an invocation (or one of its helpers) failed. */
  datatype Error =
    | WrongArgumentCount     // len(args) differs from what the handler expects
    | EmptyArgument          // a required argument is the empty string
    | Unauthorized           // caller's MSP is not the one the handler requires
    | Malformed              // JSON, integer or float text that does not decode
    | NotFound               // request, property or offer missing
    | Duplicate              // the entry is already present
    | NotQueued              // a queue is absent or lacks the request
    | InvalidInput           // payment inputs out of range
    | Forbidden              // caller is not bound to the resource it acts on
    | InsufficientFunds      // source balance unreadable or below the sum
    | Panic                  // the Go code dereferences nil or slices out of range

  datatype Result<+T> = Ok(value: T) | Err(error: Error) {

    predicate IsFailure() {
      Err?
    }

    function PropagateFailure<U>(): Result<U>
      requires Err?
    {
      Err(error)
    }

    function Extract(): T
      requires Ok?
    {
      value
    }

    /** The value on success, `default` on failure: how a Go caller that
        ignores a returned error keeps going with its previous value. */
    function GetOr(default: T): T
    {
      match this
      case Ok(v) => v
      case Err(_) => default
    }
  }

  datatype Outcome = Pass | Fail(error: Error) {

    predicate IsFailure() {
      Fail?
    }

    function PropagateFailure<U>(): Result<U>
      requires Fail?
    {
      Err(error)
    }
  }

  /** A guard: fails with `e` unless `condition` holds. */
  function Need(condition: bool, e: Error): (o: Outcome)
    ensures o.Pass? <==> condition
    ensures o.Fail? ==> o.error == e
  {
    if condition then Pass else Fail(e)
  }

  /** Converts a decoder's answer into a result, failing with `Malformed`. */
  function OrMalformed<T>(o: Option<T>): (r: Result<T>)
    ensures r.Ok? <==> o.Some?
    ensures r.Ok? ==> r.value == o.value
    ensures r.Err? ==> r.error == Malformed
  {
    match o
    case Some(v) => Ok(v)
    case None => Err(Malformed)
  }

  /** The value stored under `k`, if any. */
  function Lookup<K, V>(m: map<K, V>, k: K): Option<V>
  {
    if k in m then Some(m[k]) else None
  }
}
