/**
 * The polling step of `KerblweltDataUpdateCoordinator`
 * (custom_components/kerblwelt/coordinator.py): `_async_update_data` either
 * returns the client's device mapping as it is or turns what the client raised
 * into one of the two signals the host understands.
 */
module Coordinator {
  import opened Common
  import opened Api
  import opened Exceptions

  /** What `await self.client.get_all_device_data()` did. */
  datatype FetchOutcome = Fetched(data: Snapshot) | Failed(error: Raised)

  /** How `_async_update_data` ends. */
  datatype UpdateResult =
    | Data(data: Snapshot)                    // returned normally
    | ConfigEntryAuthFailed(message: string)  // raised: the host asks the user to re-authenticate
    | UpdateFailed(message: string)           // raised: the host marks the poll failed and retries later
    | Propagated(error: Raised)               // not an Exception: escapes unchanged

  /** Classes that mean the stored credentials no longer work. */
  const AuthErrors: set<ErrorClass> := {InvalidCredentialsError, TokenExpiredError}

  /** Every class some clause of `_async_update_data` catches. */
  const CaughtErrors: set<ErrorClass> := AuthErrors + {KerblweltConnectionError, ApiError, PyException}

  /** `_async_update_data`, with its four `except` clauses in source order. */
  function AsyncUpdateData(fetch: FetchOutcome): (r: UpdateResult)
    ensures fetch.Fetched? ==> r == Data(fetch.data)
    ensures r.Data? ==> fetch.Fetched?
    ensures r.ConfigEntryAuthFailed? <==> fetch.Failed? && IsInstance(fetch.error, AuthErrors)
    ensures r.UpdateFailed? <==>
      fetch.Failed? && !IsInstance(fetch.error, AuthErrors) && IsException(fetch.error)
    ensures r.Propagated? <==> fetch.Failed? && !IsException(fetch.error)
    ensures r.Propagated? ==> r.error == fetch.error
  {
    match fetch
    case Fetched(data) => Data(data)
    case Failed(e) =>
      if IsInstance(e, AuthErrors) then
        ConfigEntryAuthFailed("Authentication failed")
      else if IsInstance(e, {KerblweltConnectionError}) then
        UpdateFailed("Error connecting to Kerbl Welt API: " + e.text)
      else if IsInstance(e, {ApiError}) then
        UpdateFailed("Error communicating with Kerbl Welt API: " + e.text)
      else if IsInstance(e, {PyException}) then
        UpdateFailed("Unexpected error: " + e.text)
      else
        InstanceOfOne(e, PyException);
        Propagated(e)
  }

  /** The body of each `except` clause of `_async_update_data`. */
  datatype UpdateHandler = RaiseReauth | RaiseConnectionFailed | RaiseApiFailed | RaiseUnexpected

  /** The `except` clauses of `_async_update_data`, top to bottom. */
  const UpdateClauses: seq<Clause<UpdateHandler>> := [
    Clause(AuthErrors, RaiseReauth),
    Clause({KerblweltConnectionError}, RaiseConnectionFailed),
    Clause({ApiError}, RaiseApiFailed),
    Clause({PyException}, RaiseUnexpected)
  ]

  /** What each clause raises for `err`. */
  function RaiseFrom(h: UpdateHandler, err: Raised): UpdateResult {
    match h
    case RaiseReauth => ConfigEntryAuthFailed("Authentication failed")
    case RaiseConnectionFailed => UpdateFailed("Error connecting to Kerbl Welt API: " + err.text)
    case RaiseApiFailed => UpdateFailed("Error communicating with Kerbl Welt API: " + err.text)
    case RaiseUnexpected => UpdateFailed("Unexpected error: " + err.text)
  }

  /**
   * AsyncUpdateData runs exactly the clause Python's first-match rule picks from
   * the clause table, and lets through what no clause catches.
   */
  lemma {:induction false} UpdateDataFollowsClauseOrder(e: Raised)
    ensures AsyncUpdateData(Failed(e)) ==
      match Handler(UpdateClauses, e)
      case Some(h) => RaiseFrom(h, e)
      case None => Propagated(e)
  {
    var m := FirstMatch(UpdateClauses, e);
    assert Catches(UpdateClauses[0], e) <==> IsInstance(e, AuthErrors);
    assert Catches(UpdateClauses[1], e) <==> IsInstance(e, {KerblweltConnectionError});
    assert Catches(UpdateClauses[2], e) <==> IsInstance(e, {ApiError});
    assert Catches(UpdateClauses[3], e) <==> IsInstance(e, {PyException});
    if m.Some? {
      assert m.value < 4;
    }
  }

  /**
   * The first matching clause wins: an authentication error asks for
   * re-authentication even when it is also a connection or API error.
   */
  lemma AuthErrorWinsOverLaterClauses(e: Raised)
    requires IsInstance(e, AuthErrors)
    ensures AsyncUpdateData(Failed(e)) == ConfigEntryAuthFailed("Authentication failed")
  {
  }

  /** A connection error that is not an authentication error is transient, whatever else it is. */
  lemma ConnectionErrorIsTransient(e: Raised)
    requires KerblweltConnectionError in e.classes && !IsInstance(e, AuthErrors)
    ensures AsyncUpdateData(Failed(e)) == UpdateFailed("Error connecting to Kerbl Welt API: " + e.text)
  {
    InstanceOfOne(e, KerblweltConnectionError);
  }

  /** An API error that no earlier clause caught is transient. */
  lemma ApiErrorIsTransient(e: Raised)
    requires ApiError in e.classes && !IsInstance(e, AuthErrors + {KerblweltConnectionError})
    ensures AsyncUpdateData(Failed(e)) == UpdateFailed("Error communicating with Kerbl Welt API: " + e.text)
  {
    InstanceOfOne(e, ApiError);
  }

  /** Any other Exception is transient too. */
  lemma OtherExceptionIsTransient(e: Raised)
    requires IsException(e) && !IsInstance(e, AuthErrors + {KerblweltConnectionError, ApiError})
    ensures AsyncUpdateData(Failed(e)) == UpdateFailed("Unexpected error: " + e.text)
  {
  }

  /**
   * No Exception is swallowed: a failed fetch that raised an Exception ends in
   * exactly one of the two host signals, never in returned data.
   */
  lemma FailureIsSignalled(e: Raised)
    requires IsException(e)
    ensures var r := AsyncUpdateData(Failed(e));
      (r.ConfigEntryAuthFailed? || r.UpdateFailed?) && !(r.ConfigEntryAuthFailed? && r.UpdateFailed?)
  {
  }
}
