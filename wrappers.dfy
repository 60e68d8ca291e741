/** Failure-compatible wrappers and the exceptions of the synchronisation code. */
module Wrappers {

  datatype Option<T> = None | Some(value: T)

  /** The exceptions the modelled code raises or catches, by kind. */
  datatype Error =
    | KeyError          // a dict lookup of a missing key
    | TypeError         // float(None), fromisoformat of a non-string, ...
    | ValueError        // an unparsable date or number, date(y, 13, 1)
    | ZeroDivision      // days / days_max with days_max == 0
    | Overflow          // stepping before the first representable date
    | IntegrityError    // a uniqueness violation on create
    | DoesNotExist      // objects.get found nothing
    | MultipleObjects   // objects.get found more than one row
    | BadApiKey         // the marketplace rejected the credentials
    | RateLimit         // the marketplace throttled the credentials
    | Locked            // the advertising API reported a lock
    | RequestError      // any other failed API request
    | NotFound          // a 404 on a report download
    | IsLocked          // Locking.acquire gave up
    | Validation        // a form's clean() rejected its input
    | UnboundLocal      // a local variable read before any assignment
    | CardinalityViolation  // an ON CONFLICT DO UPDATE statement proposed one key twice
    | ResponseError     // the Redis server refused a command

  datatype Result<T> = Ok(value: T) | Err(error: Error) {
    predicate IsFailure() { Err? }

    function PropagateFailure<U>(): Result<U>
      requires Err?
    {
      Err(error)
    }

    function Extract(): T
      requires Ok?
    {
      value
    }
  }

  /** A sequence of writes that each commit on their own: the store they reached, and
      the exception that stopped them, if any. */
  datatype Committed<S> = Committed(store: S, error: Option<Error>)

  /** Two write sequences reach the same store and both fail or both do not. */
  predicate SameReach<S(==)>(c: Committed<S>, d: Committed<S>)
  {
    c.store == d.store && c.error.None? == d.error.None?
  }
}
