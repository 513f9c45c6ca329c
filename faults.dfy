/**
 * How an operation of the command-line client can fail: an error value the
 * Rust code returns (`kube::Error`), or a panic (`todo!`, `unreachable!`, an
 * index out of bounds) that the model turns into an outcome of its own.
 */
module Faults {

  /** The `kube::Error` values the modelled code inspects; the rest are opaque. */
  datatype KubeError =
    | Api(code: int, message: string)
    | Client(message: string)
    | Other(message: string)

  datatype Fault =
    | Kube(error: KubeError)
      /** `todo!(…)`: the operation is not implemented for this input. */
    | Unsupported(what: string)
      /** `unreachable!(…)`, an index out of bounds or `remove(0)` on an empty vector. */
    | Panic(reason: string)
}
