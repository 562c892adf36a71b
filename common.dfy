/** Shapes shared by the reconcilers and the provider adapters: Go's `error`
    results, the outcome of a store lookup, and calls that may panic. */
module Common {

  datatype Option<+T> = None | Some(value: T)

  /** The text of a non-nil Go `error`; a nil error is `None` in an `Option<Error>`.
      Errors are told apart by their text only. */
  type Error = string

  /** What a `client.Get` on the object store answers: the object, a NotFound
      error (the object does not exist), or any other error. */
  datatype Lookup<+T> = Found(value: T) | NotFound(err: Error) | Failed(err: Error)

  /** `client.IgnoreNotFound`: a NotFound error becomes nil, any other error is kept. */
  function IgnoreNotFound<T>(l: Lookup<T>): Option<Error>
    requires !l.Found?
  {
    if l.NotFound? then None else Some(l.err)
  }

  /** A Go call either returns a value or panics (nil dereference, index out of range). */
  datatype Run<+T> = Returns(value: T) | Panics(reason: string)

  const NilDereference := "invalid memory address or nil pointer dereference"
  const IndexOutOfRange := "index out of range"

  /** The `(messageId string, err error)` pair every adapter's send returns. */
  datatype SendReturn = SendReturn(id: string, err: Option<Error>)

  /** The kinds of watch event an event filter is asked about. */
  datatype EventKind = Create | Update | Delete | Generic
}
