/**
 * The default options of the client-side query cache: how long results stay
 * fresh and are kept, and when a failed query or mutation is retried.
 */
module QueryClient {
  import opened Text
  import opened JsValues

  /** Five minutes, in milliseconds. */
  const StaleTime: int := 1000 * 60 * 5
  /** Thirty minutes, in milliseconds. */
  const GcTime: int := 1000 * 60 * 30

  /** An `Error` whose message mentions 401 is never retried. */
  predicate Unauthorized(error: Thrown) {
    error.ErrorValue? && Contains(error.message, "401")
  }

  /** The query `retry` option. */
  function RetryQuery(failureCount: int, error: Thrown): (r: bool)
    ensures r <==> !Unauthorized(error) && failureCount < 3
  {
    if Unauthorized(error) then false else failureCount < 3
  }

  /** The mutation `retry` option. */
  function RetryMutation(failureCount: int, error: Thrown): (r: bool)
    ensures r <==> !Unauthorized(error) && failureCount < 2
  {
    if Unauthorized(error) then false else failureCount < 2
  }

  /** A mutation is retried only where a query would be, and stops one failure sooner. */
  lemma MutationRetriesLess(failureCount: int, error: Thrown)
    ensures RetryMutation(failureCount, error) ==> RetryQuery(failureCount, error)
    ensures !Unauthorized(error) && failureCount == 2 ==> RetryQuery(failureCount, error) && !RetryMutation(failureCount, error)
  {
  }

  /** Once a failure is not retried, no later failure count is retried either. */
  lemma RetryStopsForGood(failureCount: int, later: int, error: Thrown)
    requires failureCount <= later
    ensures !RetryQuery(failureCount, error) ==> !RetryQuery(later, error)
    ensures !RetryMutation(failureCount, error) ==> !RetryMutation(later, error)
  {
  }

  /** Only `Error` instances are inspected: a thrown string mentioning 401 is retried like any other failure. */
  lemma OnlyErrorsAreInspected(failureCount: int, text: string)
    ensures RetryQuery(failureCount, StringValue(text)) <==> failureCount < 3
    ensures RetryQuery(failureCount, MessageObject(text)) <==> failureCount < 3
  {
  }

  /** An `Error` whose message carries a 401 status is never retried, wherever the digits appear. */
  lemma UnauthorizedNeverRetried(failureCount: int, before: string, after: string)
    ensures !RetryQuery(failureCount, ErrorValue(before + "401" + after))
    ensures !RetryMutation(failureCount, ErrorValue(before + "401" + after))
  {
    ContainsMiddle(before, "401", after);
  }

  /** Stale results are kept well before they are collected. */
  lemma StaleBeforeCollected()
    ensures 0 < StaleTime < GcTime
    ensures StaleTime == 300000 && GcTime == 1800000
  {
  }

  // ---------------------------------------------------------------------------
  // Client errors: the options' comment says 4xx errors are not retried, but
  // the test looks for `401` only.
  // ---------------------------------------------------------------------------

  /** A text lacking one of `sub`'s characters does not contain `sub`. */
  lemma MissingCharNotContained(s: string, sub: string, c: char)
    requires c in sub && c !in s
    ensures !Contains(s, sub)
  {
    forall i ensures !OccursAt(s, sub, i) {
      if 0 <= i && i + |sub| <= |s| {
        assert c !in s[i..i + |sub|];
      }
    }
    ContainsIff(s, sub);
  }

  /** As written, an `Error` whose message has no `1` is retried by count alone, whatever status it carries. */
  lemma RetriedWithoutOne(failureCount: int, message: string)
    requires '1' !in message
    ensures RetryQuery(failureCount, ErrorValue(message)) <==> failureCount < 3
    ensures RetryMutation(failureCount, ErrorValue(message)) <==> failureCount < 2
  {
    MissingCharNotContained(message, "401", '1');
  }

  /** As written, `Error`s carrying other 4xx statuses are retried like every other failure. */
  lemma OtherClientErrorsRetried()
    ensures RetryQuery(0, ErrorValue("404 Not Found"))
    ensures RetryQuery(2, ErrorValue("HTTP 429"))
    ensures RetryMutation(0, ErrorValue("403 Forbidden"))
  {
    NotFoundRetried();
    TooManyRequestsRetried();
    ForbiddenRetried();
  }

  /** As written, a query failing with `404 Not Found` is retried. */
  lemma NotFoundRetried()
    ensures RetryQuery(0, ErrorValue("404 Not Found"))
  {
    RetriedWithoutOne(0, "404 Not Found");
  }

  /** As written, a query failing twice with `HTTP 429` is retried a third time. */
  lemma TooManyRequestsRetried()
    ensures RetryQuery(2, ErrorValue("HTTP 429"))
  {
    RetriedWithoutOne(2, "HTTP 429");
  }

  /** As written, a mutation failing with `403 Forbidden` is retried. */
  lemma ForbiddenRetried()
    ensures RetryMutation(0, ErrorValue("403 Forbidden"))
  {
    RetriedWithoutOne(0, "403 Forbidden");
  }

  predicate IsDigit(c: char) {
    '0' <= c <= '9'
  }

  /** `s` holds a status code from 400 to 499 starting at `i`. */
  predicate ClientStatusAt(s: string, i: int) {
    0 <= i && i + 3 <= |s| && s[i] == '4' && IsDigit(s[i + 1]) && IsDigit(s[i + 2])
  }

  /** An `Error` whose message carries a 4xx status code. */
  predicate ClientError(error: Thrown) {
    error.ErrorValue? && exists i :: 0 <= i < |error.message| && ClientStatusAt(error.message, i)
  }

  /** The query `retry` option as its comment describes it: no retry on any 4xx error. */
  function RetryQueryIntended(failureCount: int, error: Thrown): (r: bool)
    ensures r <==> !ClientError(error) && failureCount < 3
  {
    if ClientError(error) then false else failureCount < 3
  }

  /** The mutation `retry` option as its comment describes it: no retry on any 4xx error. */
  function RetryMutationIntended(failureCount: int, error: Thrown): (r: bool)
    ensures r <==> !ClientError(error) && failureCount < 2
  {
    if ClientError(error) then false else failureCount < 2
  }

  /** Under the intended options, an `Error` with any 4xx status in its message is never retried. */
  lemma ClientErrorsNeverRetried(failureCount: int, before: string, d1: char, d2: char, after: string)
    requires IsDigit(d1) && IsDigit(d2)
    ensures !RetryQueryIntended(failureCount, ErrorValue(before + ['4', d1, d2] + after))
    ensures !RetryMutationIntended(failureCount, ErrorValue(before + ['4', d1, d2] + after))
  {
    assert ClientStatusAt(before + ['4', d1, d2] + after, |before|);
  }

  /** An `Error` mentioning `401` is a client error, so the intended options are stricter than the written ones. */
  lemma UnauthorizedIsClientError(error: Thrown)
    ensures Unauthorized(error) ==> ClientError(error)
  {
    if Unauthorized(error) {
      ContainsIff(error.message, "401");
      var i :| OccursAt(error.message, "401", i);
      assert error.message[i..i + 3][0] == error.message[i];
      assert error.message[i..i + 3][1] == error.message[i + 1];
      assert error.message[i..i + 3][2] == error.message[i + 2];
      assert ClientStatusAt(error.message, i);
    }
  }

  /**
   * The intended options retry only where the written ones do, and differ
   * from them only on 4xx errors that do not mention `401`.
   */
  lemma IntendedRetriesLess(failureCount: int, error: Thrown)
    ensures RetryQueryIntended(failureCount, error) ==> RetryQuery(failureCount, error)
    ensures RetryMutationIntended(failureCount, error) ==> RetryMutation(failureCount, error)
    ensures !ClientError(error) ==> RetryQueryIntended(failureCount, error) == RetryQuery(failureCount, error)
    ensures !ClientError(error) ==> RetryMutationIntended(failureCount, error) == RetryMutation(failureCount, error)
  {
    UnauthorizedIsClientError(error);
  }
}
