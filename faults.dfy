/** The faults the proxy's request pipeline can run into. */
module Faults {

  /** A run-time fault of the Go code: each one is a panic or a process exit there. */
  datatype Fault =
    | MissingValue(segment: string)  // X-ApiKeys segment names a credential but has no '=': keys[1] is out of range
    | NotPopulated                   // the context holds no attribute map: the type assertion in ContextMap fails
    | NilMetrics                     // cacheFetch calls CacheInc on a nil *metrics.Metrics
    | NilConfig                      // NewServer is given a nil config and calls log.Fatalf

  /** An error value returned (and mostly discarded) by a collaborator. */
  datatype Error = Error(message: string)
}
