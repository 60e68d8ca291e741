/** What the sync tasks share: the result they report and their except blocks. */
module Tasks {
  import opened Wrappers
  import opened Accounts

  /** Why a task reported failure. */
  datatype Reason =
    | EmptyKey          // apikey_id was None
    | Raised(e: Error)  // an exception from the marketplace API
    | OtherFailure      // any other exception (the store's, a division by zero, ...)
    | NoProducts        // the shop has no products, so nothing is asked for

  /** {"SUCCESS": ...} or {"❌FAILED": msg} */
  datatype TaskResult = Success | Failure(reason: Reason)

  /** How a fetch-and-store run ended: normally, with an exception of the marketplace
      API, or with any other exception. Every write of the run commits on its own, so
      each end carries the state the run had reached when it stopped. */
  datatype End<T> = Finished(value: T) | ApiError(e: Error, value: T) | OtherError(value: T)

  /** The except blocks around a run: a rejected key (ErrorBadApiKey) is switched off and
      saved; every other exception, a rate limit included, only fails the sync task. */
  function Settle<T>(key: ApiKey, end: End<T>): (r: (ApiKey, TaskResult))
    ensures end.Finished? <==> r.1 == Success
    ensures end.ApiError? ==> r.1 == Failure(Raised(end.e))
    ensures end.OtherError? ==> r.1 == Failure(OtherFailure)
    ensures r.0.isActive <==> key.isActive && !(end.ApiError? && end.e == BadApiKey)
    ensures r.0.(isActive := key.isActive) == key
  {
    match end
    case Finished(_) => (key, Success)
    case ApiError(e, _) => (if e == BadApiKey then key.(isActive := false) else key, Failure(Raised(e)))
    case OtherError(_) => (key, Failure(OtherFailure))
  }

  /** kwargs.get("days", 1) */
  function DaysOr(days: Option<int>): int
  {
    if days.Some? then days.value else 1
  }
}
