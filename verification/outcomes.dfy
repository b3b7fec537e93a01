/** Go's `error` results, optional values and the oracle that answers external calls. */
module Outcomes {

  /** The text of a non-nil Go `error` (its `Error()` string). */
  type Error = string

  datatype Option<+T> = None | Some(value: T)

  datatype Result<+T> = Success(value: T) | Failure(error: Error)

  /** What a Go call returning `error` hands back: nil, a non-nil error, or a runtime panic
      (index out of range, nil dereference) that ends the goroutine instead of returning. */
  datatype Outcome = Ok | Err(error: Error) | Panic(reason: string)

  /** The reasons of the two runtime panics the core can hit. */
  const NilDereference: string := "invalid memory address or nil pointer dereference"
  const IndexOutOfRange: string := "index out of range"

  /** The answers that the outside world (cloud API, database, Kubernetes API, Action runtime)
      gives to the n-th call of a run, n counted from the start of the call trace. A call fails
      when `fails(n)`, with `message(n)`; otherwise it yields whichever of the other answers the
      call produces (a droplet id, an address, a number of listed items). */
  datatype Env = Env(
    fails: nat -> bool,
    message: nat -> Error,
    number: nat -> int,
    text: nat -> string,
    count: nat -> nat)

  /** The outcome of the n-th call. */
  function Answer(env: Env, n: nat): (r: Outcome)
    ensures r.Ok? <==> !env.fails(n)
    ensures r.Err? ==> r.error == env.message(n)
  {
    if env.fails(n) then Err(env.message(n)) else Ok
  }

  /** Every call at a position in lo..hi-1 succeeds. */
  predicate Succeed(env: Env, lo: nat, hi: nat)
  {
    forall p :: lo <= p < hi ==> !env.fails(p)
  }
}
