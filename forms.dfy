/**
 * The error dictionaries the admin and account forms build: one entry per field
 * that failed, holding that field's message.
 */
module Forms {
  import opened Wrappers

  /** `errors[f] = message` when there is a message for `f`, otherwise `errors` as it was. */
  function WithError<F(==)>(m: map<F, string>, f: F, e: Option<string>): map<F, string> {
    if e.Some? then m[f := e.value] else m
  }
}
