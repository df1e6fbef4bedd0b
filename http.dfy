/** What the HTTP handlers' request checks decide, and JavaScript truthiness of
    request fields. A field is None when it is undefined or null. */
module Http {
  import opened Wrappers

  /** An error response with its status, or the call the handler goes on to
      make and the status it answers with when that call succeeds. */
  datatype Reply<R, T> = Reject(status: int, reason: R) | Pass(status: int, value: T)

  predicate Truthy(s: Option<string>) { s.Some? && s.value != "" }

  predicate TruthyNumber(n: Option<int>) { n.Some? && n.value != 0 }
}
