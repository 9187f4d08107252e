/**
 * Values shared by the base server model: the HTTP configuration, opaque
 * handles for the collaborators the server only stores and passes on
 * (logger, metrics registry, middleware, metrics initialiser), errors,
 * and the Option/Result wrappers used for Go's nil and error returns.
 */
module BaseTypes {

  /** Go's `nil`-or-value: `None` is nil. */
  datatype Option<+T> = None | Some(value: T)

  /** A value or an error, as Go's `(T, error)` pairs. */
  datatype Result<+T> = Ok(value: T) | Err(error: Error)

  /** A Go `error`; only its `Error()` text is observable here. */
  datatype Error = Error(message: string)

  /** Network binding settings: `HTTPConfig{Address, Port}`. Go's `int` port. */
  datatype HTTPConfig = HTTPConfig(address: string, port: int)

  /** A zerolog logger handle: the no-op logger or some configured one. */
  datatype Logger = NopLogger | ConfiguredLogger(id: nat)

  /** A go-metrics registry handle: the process default or some other one. */
  datatype Registry = DefaultRegistry | OtherRegistry(id: nat)

  /** An opaque `func(http.Handler) http.Handler`. */
  datatype Middleware = Middleware(id: nat)

  /** An opaque `func()` registered as the metrics initialiser. */
  datatype InitMetrics = InitMetrics(id: nat)

  /** One octet of an HTTP body. */
  newtype byte = x: int | 0 <= x < 256
}
