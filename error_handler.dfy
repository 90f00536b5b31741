/** Error classification and retries (src/utils/errorHandler.js): an error
    from an API call becomes an `AppError` with a code and a French message,
    chosen by a fixed precedence; a failing call is retried with doubling
    delays. Whether the browser is online, the current time and the outcomes
    of the retried call are parameters. */
module ErrorHandler {
  import opened Json

  const NetworkError: string := "NETWORK_ERROR"
  const ApiKeyError: string := "API_KEY_ERROR"
  const TimeoutError: string := "TIMEOUT_ERROR"
  const ValidationError: string := "VALIDATION_ERROR"
  const NotFound: string := "NOT_FOUND"
  const ImageGenerationError: string := "IMAGE_GENERATION_ERROR"
  const ChatError: string := "CHAT_ERROR"
  const RateLimitError: string := "RATE_LIMIT_ERROR"
  const GenericError: string := "GENERIC_ERROR"

  // `ERROR_MESSAGES`, one constant per code.
  const NetworkMessage: string := "Erreur de connexion. Veuillez v\U{00E9}rifier votre connexion internet."
  const ApiKeyMessage: string := "Erreur de configuration API. Veuillez contacter le support."
  const TimeoutMessage: string := "La requ\U{00EA}te a expir\U{00E9}. Veuillez r\U{00E9}essayer."
  const ValidationMessage: string := "Veuillez v\U{00E9}rifier les informations saisies."
  const NotFoundMessage: string := "Ressource non trouv\U{00E9}e."
  const ImageGenerationMessage: string := "Impossible de g\U{00E9}n\U{00E9}rer l'image. Veuillez r\U{00E9}essayer."
  const ChatMessage: string := "Erreur de l'assistant. Veuillez r\U{00E9}essayer."
  const RateLimitMessage: string := "Trop de requ\U{00EA}tes. Veuillez patienter quelques instants."
  const GenericMessage: string := "Une erreur s'est produite. Veuillez r\U{00E9}essayer."

  /** An `AppError`: its message, `code`, `details` and `timestamp`. */
  datatype AppError = AppError(message: Value, code: string, details: Value, timestamp: string)

  /** `new AppError(message, code, details)` at time `now`; `details`
      defaults to `{}` when it is undefined. */
  function NewAppError(message: Value, code: string, details: Value, now: string): (e: AppError)
    ensures e.message == message && e.code == code && e.timestamp == now
    ensures e.details == (if details.Undefined? then Obj(map[]) else details)
  {
    AppError(message, code, if details.Undefined? then Obj(map[]) else details, now)
  }

  predicate HasStatus(error: Value, status: real) {
    StrictEquals(Field(error, "status"), Num(status))
  }

  predicate IsTimeout(error: Value) {
    StrictEquals(Field(error, "name"), Str("AbortError")) || StrictEquals(Field(error, "code"), Str("ETIMEDOUT"))
  }

  /** `handleAPIError(error)`: Err when the error is null or undefined while
      the browser is online, since reading its name then throws. */
  function HandleApiError(error: Value, online: bool, now: string): (r: Result<AppError, string>)
    ensures r.Err? <==> online && IsNullish(error)
    ensures !online ==> r.Ok? && r.value.code == NetworkError
    ensures r.Ok? ==> r.value.timestamp == now
  {
    if !online then Ok(NewAppError(Str(NetworkMessage), NetworkError, Undefined, now))
    else if IsNullish(error) then Err("TypeError")
    else if IsTimeout(error) then Ok(NewAppError(Str(TimeoutMessage), TimeoutError, Undefined, now))
    else if HasStatus(error, 401.0) || HasStatus(error, 403.0) then
      Ok(NewAppError(Str(ApiKeyMessage), ApiKeyError, Undefined, now))
    else if HasStatus(error, 429.0) then Ok(NewAppError(Str(RateLimitMessage), RateLimitError, Undefined, now))
    else if HasStatus(error, 404.0) then Ok(NewAppError(Str(NotFoundMessage), NotFound, Undefined, now))
    else if HasStatus(error, 400.0) then
      Ok(NewAppError(Or(Field(error, "message"), Str(ValidationMessage)), ValidationError,
                     Field(error, "details"), now))
    else Ok(NewAppError(Or(Field(error, "message"), Str(GenericMessage)), GenericError, Undefined, now))
  }

  /** The code `handleAPIError` picks, stated as the precedence: each code is
      chosen exactly when its own test holds and no earlier one does. */
  lemma Precedence(error: Value, online: bool, now: string)
    ensures HandleApiError(error, online, now).Err? <==> online && IsNullish(error)
    ensures var r := HandleApiError(error, online, now); r.Ok? ==>
      (r.value.code == NetworkError <==> !online) &&
      (r.value.code == TimeoutError <==> online && IsTimeout(error)) &&
      (r.value.code == ApiKeyError <==>
        online && !IsTimeout(error) && (HasStatus(error, 401.0) || HasStatus(error, 403.0))) &&
      (r.value.code == RateLimitError <==> online && !IsTimeout(error) && HasStatus(error, 429.0)) &&
      (r.value.code == NotFound <==> online && !IsTimeout(error) && HasStatus(error, 404.0)) &&
      (r.value.code == ValidationError <==> online && !IsTimeout(error) && HasStatus(error, 400.0)) &&
      (r.value.code == GenericError <==>
        online && !IsTimeout(error) && !HasStatus(error, 401.0) && !HasStatus(error, 403.0) &&
        !HasStatus(error, 429.0) && !HasStatus(error, 404.0) && !HasStatus(error, 400.0))
    ensures var r := HandleApiError(error, online, now); r.Ok? ==> r.value.timestamp == now
  {
    CodesDistinct();
  }

  /** The fixed codes get the catalogue's message. */
  lemma FixedMessages(error: Value, online: bool, now: string)
    ensures var r := HandleApiError(error, online, now); r.Ok? ==>
      (r.value.code == NetworkError ==> r.value.message == Str(NetworkMessage)) &&
      (r.value.code == TimeoutError ==> r.value.message == Str(TimeoutMessage)) &&
      (r.value.code == ApiKeyError ==> r.value.message == Str(ApiKeyMessage)) &&
      (r.value.code == RateLimitError ==> r.value.message == Str(RateLimitMessage)) &&
      (r.value.code == NotFound ==> r.value.message == Str(NotFoundMessage))
  {
    Precedence(error, online, now);
  }

  /** A 400 or an unclassified error keeps its own message when that is
      truthy; only a 400 passes its details on, and the others have `{}`. */
  lemma KeptMessages(error: Value, online: bool, now: string)
    ensures var r := HandleApiError(error, online, now); var m := Field(error, "message"); r.Ok? ==>
      (r.value.code == ValidationError ==> r.value.message == (if Truthy(m) then m else Str(ValidationMessage))) &&
      (r.value.code == GenericError ==> r.value.message == (if Truthy(m) then m else Str(GenericMessage)))
    ensures var r := HandleApiError(error, online, now); var d := Field(error, "details"); r.Ok? ==>
      (r.value.code == ValidationError && !d.Undefined? ==> r.value.details == d) &&
      (r.value.code != ValidationError || d.Undefined? ==> r.value.details == Obj(map[]))
  {
    Precedence(error, online, now);
  }

  lemma CodesDistinct()
    ensures NetworkError != TimeoutError && NetworkError != ApiKeyError && NetworkError != RateLimitError
    ensures NetworkError != NotFound && NetworkError != ValidationError && NetworkError != GenericError
    ensures TimeoutError != ApiKeyError && TimeoutError != RateLimitError && TimeoutError != NotFound
    ensures TimeoutError != ValidationError && TimeoutError != GenericError
    ensures ApiKeyError != RateLimitError && ApiKeyError != NotFound && ApiKeyError != ValidationError
    ensures ApiKeyError != GenericError
    ensures RateLimitError != NotFound && RateLimitError != ValidationError && RateLimitError != GenericError
    ensures NotFound != ValidationError && NotFound != GenericError && ValidationError != GenericError
  {
    assert NetworkError[0] == 'N' && TimeoutError[0] == 'T' && ApiKeyError[0] == 'A';
    assert RateLimitError[0] == 'R' && ValidationError[0] == 'V' && GenericError[0] == 'G';
    assert NotFound[1] == 'O' && NetworkError[1] == 'E';
  }

  /** Offline wins over everything, whatever the error is. */
  lemma OfflineWins(error: Value, now: string)
    ensures HandleApiError(error, false, now) ==
      Ok(AppError(Str(NetworkMessage), NetworkError, Obj(map[]), now))
  {
  }

  /** A timeout with a 401 status is still a timeout. */
  lemma TimeoutBeforeStatus(error: Value, now: string)
    requires error == Obj(map["name" := Str("AbortError"), "status" := Num(401.0)])
    ensures HandleApiError(error, true, now).Ok? && HandleApiError(error, true, now).value.code == TimeoutError
  {
    assert Field(error, "name") == Str("AbortError");
  }

  function Pow2(i: nat): nat {
    if i == 0 then 1 else 2 * Pow2(i - 1)
  }

  /** `delay * Math.pow(2, i)`. */
  function Backoff(delay: real, i: nat): real {
    delay * Pow2(i) as real
  }

  function Sum(xs: seq<real>): real {
    if xs == [] then 0.0 else Sum(xs[..|xs| - 1]) + xs[|xs| - 1]
  }

  /** `retryWithBackoff(fn, maxRetries, delay)`: `attempt(i)` is what the
      `i`-th call of `fn` settles to (Ok for a value, Err for a thrown error).
      It returns the number of calls, the waits between them, and the
      outcome: the first success, or the last error once `maxRetries` calls
      have failed; with `maxRetries <= 0` nothing is called and the result is
      `undefined`. */
  method RetryWithBackoff(attempt: nat -> Result<Value, Value>, maxRetries: int, delay: real)
    returns (r: Result<Value, Value>, calls: nat, waits: seq<real>)
    ensures maxRetries <= 0 ==> calls == 0 && r == Ok(Undefined) && waits == []
    ensures maxRetries > 0 ==> 1 <= calls <= maxRetries && r == attempt(calls - 1)
    ensures maxRetries > 0 ==> (r.Err? ==> calls == maxRetries)
    ensures forall i :: 0 <= i < calls - 1 ==> attempt(i).Err?
    ensures calls > 0 ==> |waits| == calls - 1
    ensures forall i :: 0 <= i < |waits| ==> waits[i] == Backoff(delay, i)
  {
    calls := 0;
    waits := [];
    var i := 0;
    while i < maxRetries
      invariant 0 <= i && (maxRetries > 0 ==> i < maxRetries) && (maxRetries <= 0 ==> i == 0)
      invariant calls == i && |waits| == i
      invariant forall k :: 0 <= k < i ==> attempt(k).Err?
      invariant forall k :: 0 <= k < i ==> waits[k] == Backoff(delay, k)
      decreases maxRetries - i
    {
      var outcome := attempt(i);
      calls := calls + 1;
      if outcome.Ok? {
        return outcome, calls, waits;
      }
      if i == maxRetries - 1 {
        return outcome, calls, waits;
      }
      var backoff := Backoff(delay, i);
      waits := waits + [backoff];
      i := i + 1;
    }
    return Ok(Undefined), calls, waits;
  }

  /** The waits add up to `delay * (2^n - 1)` after `n` waits. */
  lemma {:induction false} TotalWait(waits: seq<real>, delay: real)
    requires forall i :: 0 <= i < |waits| ==> waits[i] == Backoff(delay, i)
    ensures Sum(waits) == delay * (Pow2(|waits|) - 1) as real
  {
    if waits != [] {
      var n := |waits| - 1;
      TotalWait(waits[..n], delay);
      var p := Pow2(n) as real;
      assert Pow2(n + 1) as real == 2.0 * p;
      assert Sum(waits) == delay * (p - 1.0) + delay * p;
      assert delay * (p - 1.0) + delay * p == delay * (2.0 * p - 1.0);
    }
  }
}
