/** What the services see of a `fetch`: a response with a status and a JSON body, or an
    exception; and how their `catch` blocks turn exceptions into user-visible messages. */
module Http {
  import opened Results
  import opened Text

  /** An exception raised inside a service's `try` block. `ApiError` is the services' own
      error class; `TypeError` is what `fetch` rejects with on a transport failure and what
      property access on a missing JSON field raises; anything else (a JSON syntax error)
      is `OtherError`. */
  datatype Thrown = ApiError(message: string) | TypeError(message: string) | OtherError(message: string)

  /** A settled `fetch`: the HTTP status and the body `response.json()` yields (`None` when
      the body is not valid JSON, so that `json()` rejects), or the exception `fetch` threw. */
  datatype Response<B> = Answered(status: nat, body: Option<B>) | Threw(thrown: Thrown)

  /** `response.ok`. */
  predicate IsOk(status: nat)
  {
    200 <= status <= 299
  }

  /** The result of a `try` block: a value, or the exception that left it. */
  datatype Attempt<T> = Returned(value: T) | Raised(thrown: Thrown)

  /** `response.json()` of an OK response. */
  function ReadBody<B>(body: Option<B>): (r: Attempt<B>)
    ensures body.Some? <==> r.Returned?
    ensures body.Some? ==> r.value == body.value
  {
    match body
    case Some(b) => Returned(b)
    case None => Raised(OtherError("Unexpected token in JSON"))
  }

  const NetworkErrorText := "Network error. Please check your internet connection."

  /** The shared `catch` block: an `ApiError` passes through with its message, a
      `TypeError` whose message mentions "fetch" becomes the network error, and anything
      else becomes the service's own "unexpected error" text. */
  function Reclassify(thrown: Thrown, unexpected: string): (message: string)
    ensures thrown.ApiError? ==> message == thrown.message
    ensures thrown.TypeError? && Contains(thrown.message, "fetch") ==> message == NetworkErrorText
    ensures !thrown.ApiError? && !(thrown.TypeError? && Contains(thrown.message, "fetch")) ==> message == unexpected
  {
    match thrown
    case ApiError(m) => m
    case TypeError(m) => if Contains(m, "fetch") then NetworkErrorText else unexpected
    case OtherError(_) => unexpected
  }

  /** A transport failure reported as "Failed to fetch" surfaces as the network error. */
  lemma FailedFetchIsNetworkError(unexpected: string)
    ensures Reclassify(TypeError("Failed to fetch"), unexpected) == NetworkErrorText
  {
    assert StartsWith("fetch", "fetch");
    assert "Failed to fetch"[10..] == "fetch";
    ContainsAtOffset("Failed to fetch", "fetch", 10);
  }

  /** A needle found at a given offset is contained. */
  lemma {:induction false} ContainsAtOffset(haystack: string, needle: string, i: nat)
    requires i <= |haystack| && StartsWith(haystack[i..], needle)
    ensures Contains(haystack, needle)
    decreases i
  {
    if i > 0 {
      assert haystack[1..][i - 1..] == haystack[i..];
      ContainsAtOffset(haystack[1..], needle, i - 1);
    } else {
      assert haystack[0..] == haystack;
    }
  }
}
