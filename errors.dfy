/** Go's `error` values as the probe package sees them: nil (None), an error
    produced by a probe's own Setup or Start, or an error that `errors.Wrap`
    has given a context message. */
module Errors {

  datatype Option<+T> = None | Some(value: T)

  datatype Error =
    | Fault(detail: string)               // an error returned by a probe itself
    | Wrapped(msg: string, cause: Error)  // errors.Wrap(cause, msg)
}
