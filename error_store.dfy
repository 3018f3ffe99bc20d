/**
 * The error store: the current error, typed setters, and handlers that turn a
 * rejected promise or a failed HTTP response into an error. Non-critical
 * errors schedule an automatic clear 30 seconds later; the clock is a
 * parameter and each pending timer is kept as the time it is due.
 */
module ErrorStore {
  import opened Wrappers
  import opened Json
  import opened JsValues
  import DerivedStore

  datatype ErrorType = Network | Validation | AuthError | Server | Unknown

  /** Each `None` stands for `null` (or an absent optional member). */
  datatype ErrorState = ErrorState(message: Option<string>, kind: Option<ErrorType>, code: Option<string>,
                                   timestamp: Option<int>, details: Option<Json>)

  const InitialState: ErrorState := ErrorState(None, None, None, None, None)

  const AutoClearDelay: int := 30000

  /** `hasError`: a message is set, which the initial (cleared) state never has. */
  predicate HasError(s: ErrorState)
    ensures HasError(s) ==> s != InitialState
  {
    s.message.Some?
  }

  /** As written, `hasError` is built by `derived(subscribe, …)`, and subscribing to it throws. */
  lemma HasErrorThrowsAsWritten(s: ErrorState)
    ensures DerivedStore.FirstValue(DerivedStore.BareSubscribe(s), HasError) == DerivedStore.Throws(DerivedStore.NotAStore)
  {
  }

  /** As intended, `derived({ subscribe }, …)`: the view shows whether a message is set. */
  lemma HasErrorAsIntended(s: ErrorState)
    ensures DerivedStore.FirstValue(DerivedStore.Store(s), HasError) == DerivedStore.Value(s.message.Some?)
  {
  }

  /** Auth and validation errors stay until cleared; every other kind, `null` included, is cleared automatically. */
  predicate AutoClears(kind: Option<ErrorType>) {
    kind != Some(AuthError) && kind != Some(Validation)
  }

  /** `createError`: the error as `setError` would record it at `now`. */
  function CreateError(message: string, kind: Option<ErrorType>, code: Option<string>, details: Option<Json>,
                       now: int): (r: ErrorState)
    ensures HasError(r) && r.message == Some(message) && r.timestamp == Some(now)
    ensures r.kind == kind && r.code == code && r.details == details
  {
    ErrorState(Some(message), kind, code, Some(now), details)
  }

  // ---------------------------------------------------------------------------
  // The store and its timers
  // ---------------------------------------------------------------------------

  /** The store's state together with the due times of the auto-clear timers not yet fired. */
  datatype Clocked = Clocked(state: ErrorState, due: seq<int>)

  /** `setError` at `now`: record the error, and schedule a clear when it is not critical. */
  function Raised(c: Clocked, message: string, kind: Option<ErrorType>, code: Option<string>,
                  details: Option<Json>, now: int): (r: Clocked)
    ensures r.state == CreateError(message, kind, code, details, now)
    ensures AutoClears(kind) ==> r.due == c.due + [now + AutoClearDelay]
    ensures !AutoClears(kind) ==> r.due == c.due
  {
    Clocked(CreateError(message, kind, code, details, now),
            if AutoClears(kind) then c.due + [now + AutoClearDelay] else c.due)
  }

  /** The timers due at or before `now`. */
  function Fired(due: seq<int>, now: int): (r: seq<int>)
    ensures forall t :: t in r <==> t in due && t <= now
    ensures |r| <= |due|
  {
    if due == [] then [] else (if due[0] <= now then [due[0]] else []) + Fired(due[1..], now)
  }

  /** The timers still pending after `now`. */
  function Pending(due: seq<int>, now: int): (r: seq<int>)
    ensures forall t :: t in r <==> t in due && t > now
    ensures |r| <= |due|
  {
    if due == [] then [] else (if due[0] > now then [due[0]] else []) + Pending(due[1..], now)
  }

  /** The clock reaches `now`: every due timer runs `clearError`, which resets the whole state. */
  function Elapsed(c: Clocked, now: int): (r: Clocked)
    ensures r.due == Pending(c.due, now)
    ensures (exists t :: t in c.due && t <= now) ==> r.state == InitialState
    ensures (forall t :: t in c.due ==> t > now) ==> r.state == c.state
  {
    assert (exists t :: t in c.due && t <= now) <==> Fired(c.due, now) != [] by {
      if Fired(c.due, now) != [] {
        assert Fired(c.due, now)[0] in Fired(c.due, now);
      }
    }
    Clocked(if Fired(c.due, now) == [] then c.state else InitialState, Pending(c.due, now))
  }

  /** A non-critical error is gone once 30 seconds have passed. */
  lemma NonCriticalErrorClears(c: Clocked, message: string, kind: Option<ErrorType>, code: Option<string>,
                               details: Option<Json>, now: int, later: int)
    requires AutoClears(kind) && later >= now + AutoClearDelay
    ensures !HasError(Elapsed(Raised(c, message, kind, code, details, now), later).state)
  {
    var r := Raised(c, message, kind, code, details, now);
    assert now + AutoClearDelay in r.due;
  }

  /** With no timer pending, an auth or validation error is kept however much time passes. */
  lemma CriticalErrorStays(c: Clocked, message: string, kind: Option<ErrorType>, code: Option<string>,
                           details: Option<Json>, now: int, later: int)
    requires !AutoClears(kind) && c.due == []
    ensures Elapsed(Raised(c, message, kind, code, details, now), later).state == CreateError(message, kind, code, details, now)
  {
  }

  /**
   * As written, a timer scheduled for an earlier network error also clears a
   * later auth error: `clearError` resets the whole state, whatever it holds.
   */
  lemma EarlierTimerClearsAuthError(now: int)
    ensures var first := Raised(Clocked(InitialState, []), "offline", Some(Network), None, None, now);
            var second := Raised(first, "denied", Some(AuthError), None, None, now + 1);
            HasError(second.state) && !HasError(Elapsed(second, now + AutoClearDelay).state)
  {
    var first := Raised(Clocked(InitialState, []), "offline", Some(Network), None, None, now);
    var second := Raised(first, "denied", Some(AuthError), None, None, now + 1);
    assert now + AutoClearDelay in second.due;
  }

  /**
   * `setError` as evidently intended: a new error cancels the timers of the
   * one it replaces, so only the newest error decides whether a clear is due.
   */
  function RaisedCancelling(c: Clocked, message: string, kind: Option<ErrorType>, code: Option<string>,
                            details: Option<Json>, now: int): (r: Clocked)
    ensures r.state == CreateError(message, kind, code, details, now)
    ensures r.due == if AutoClears(kind) then [now + AutoClearDelay] else []
  {
    Clocked(CreateError(message, kind, code, details, now), if AutoClears(kind) then [now + AutoClearDelay] else [])
  }

  /** Under the corrected `setError`, an auth or validation error survives any earlier timer. */
  lemma CriticalErrorSurvivesEarlierTimers(c: Clocked, message: string, kind: Option<ErrorType>,
                                           code: Option<string>, details: Option<Json>, now: int, later: int)
    requires !AutoClears(kind)
    ensures HasError(Elapsed(RaisedCancelling(c, message, kind, code, details, now), later).state)
    ensures Elapsed(RaisedCancelling(c, message, kind, code, details, now), later).state.kind == kind
  {
  }

  // ---------------------------------------------------------------------------
  // Handlers
  // ---------------------------------------------------------------------------

  /** The message `handlePromiseRejection` records, always as an unknown error. */
  function RejectionMessage(error: Thrown): (r: string)
    ensures error.ErrorValue? ==> r == error.message
    ensures !error.ErrorValue? ==> r == "An unknown error occurred"
  {
    match error
    case ErrorValue(message) => message
    case _ => "An unknown error occurred"
  }

  const AuthFailedMessage: string := "Authentication failed. Please check your credentials."
  const AccessDeniedMessage: string := "Access denied. You do not have permission to access this resource."

  /** `handleFetchError`: the kind, code and message recorded for a failed response. */
  function FetchErrorKind(status: int, statusText: string): (r: (ErrorType, string))
    ensures r.0 == AuthError <==> status == 401 || status == 403
    ensures r.0 == Server <==> status >= 500
    ensures r.0 == Validation <==> 400 <= status < 500 && status != 401 && status != 403
    ensures r.0 == Network <==> status < 400
    ensures status == 401 ==> r.1 == AuthFailedMessage
    ensures status == 403 ==> r.1 == AccessDeniedMessage
    ensures r.0 == Server ==> r.1 == "Server error: " + statusText
    ensures r.0 == Validation ==> r.1 == "Request failed: " + statusText
    ensures r.0 == Network ==> r.1 == "Network error: " + statusText
  {
    if status == 401 then (AuthError, AuthFailedMessage)
    else if status == 403 then (AuthError, AccessDeniedMessage)
    else if status >= 500 then (Server, "Server error: " + statusText)
    else if status >= 400 then (Validation, "Request failed: " + statusText)
    else (Network, "Network error: " + statusText)
  }

  /** Of the failed responses, exactly the 5xx ones and those below 400 schedule an auto-clear. */
  lemma FetchErrorAutoClears(status: int, statusText: string)
    ensures AutoClears(Some(FetchErrorKind(status, statusText).0)) <==> status >= 500 || status < 400
  {
  }

  class ErrorStoreCell {
    var state: ErrorState
    /** Due times of the auto-clear timers not yet fired. */
    var due: seq<int>

    constructor()
      ensures state == InitialState && due == []
    {
      state := InitialState;
      due := [];
    }

    /** `setError`; the default type `'unknown'` is passed explicitly by the setters below. */
    method SetError(message: string, kind: Option<ErrorType>, code: Option<string>, details: Option<Json>, now: int)
      modifies this
      ensures Clocked(state, due) == Raised(Clocked(old(state), old(due)), message, kind, code, details, now)
    {
      state := CreateError(message, kind, code, details, now);
      if AutoClears(kind) {
        due := due + [now + AutoClearDelay];
      }
    }

    method ClearError()
      modifies this
      ensures state == InitialState && due == old(due)
    {
      state := InitialState;
    }

    /** The clock reaches `now` and the due timers run. */
    method Elapse(now: int)
      modifies this
      ensures Clocked(state, due) == Elapsed(Clocked(old(state), old(due)), now)
    {
      var timers := due;
      var remaining: seq<int> := [];
      var fired := false;
      for i := 0 to |timers|
        invariant remaining == Pending(timers[..i], now)
        invariant fired <==> Fired(timers[..i], now) != []
        invariant state == old(state) && due == old(due)
      {
        assert timers[..i + 1] == timers[..i] + [timers[i]];
        PendingSnoc(timers[..i], timers[i], now);
        FiredSnoc(timers[..i], timers[i], now);
        if timers[i] <= now {
          fired := true;
        } else {
          remaining := remaining + [timers[i]];
        }
      }
      assert timers[..|timers|] == timers;
      if fired {
        state := InitialState;
      }
      due := remaining;
    }

    method SetNetworkError(message: string, details: Option<Json>, now: int)
      modifies this
      ensures Clocked(state, due) == Raised(Clocked(old(state), old(due)), message, Some(Network), None, details, now)
    {
      SetError(message, Some(Network), None, details, now);
    }

    method SetValidationError(message: string, details: Option<Json>, now: int)
      modifies this
      ensures Clocked(state, due) == Raised(Clocked(old(state), old(due)), message, Some(Validation), None, details, now)
    {
      SetError(message, Some(Validation), None, details, now);
    }

    method SetAuthError(message: string, code: Option<string>, now: int)
      modifies this
      ensures Clocked(state, due) == Raised(Clocked(old(state), old(due)), message, Some(AuthError), code, None, now)
    {
      SetError(message, Some(AuthError), code, None, now);
    }

    method SetServerError(message: string, code: Option<string>, details: Option<Json>, now: int)
      modifies this
      ensures Clocked(state, due) == Raised(Clocked(old(state), old(due)), message, Some(Server), code, details, now)
    {
      SetError(message, Some(Server), code, details, now);
    }

    method SetUnknownError(message: string, details: Option<Json>, now: int)
      modifies this
      ensures Clocked(state, due) == Raised(Clocked(old(state), old(due)), message, Some(Unknown), None, details, now)
    {
      SetError(message, Some(Unknown), None, details, now);
    }

    method HandlePromiseRejection(error: Thrown, now: int)
      modifies this
      ensures Clocked(state, due) == Raised(Clocked(old(state), old(due)), RejectionMessage(error), Some(Unknown), None, None, now)
    {
      if error.ErrorValue? {
        SetUnknownError(error.message, None, now);
      } else {
        SetUnknownError("An unknown error occurred", None, now);
      }
    }

    /** `handleFetchError`; the request URL is unused by the source. */
    method HandleFetchError(status: int, statusText: string, now: int)
      modifies this
      ensures Clocked(state, due) == Raised(Clocked(old(state), old(due)), FetchErrorKind(status, statusText).1,
                                            Some(FetchErrorKind(status, statusText).0), None, None, now)
    {
      if status == 401 {
        SetAuthError(AuthFailedMessage, None, now);
      } else if status == 403 {
        SetAuthError(AccessDeniedMessage, None, now);
      } else if status >= 500 {
        SetServerError("Server error: " + statusText, None, None, now);
      } else if status >= 400 {
        SetValidationError("Request failed: " + statusText, None, now);
      } else {
        SetNetworkError("Network error: " + statusText, None, now);
      }
    }
  }

  lemma PendingSnoc(due: seq<int>, t: int, now: int)
    ensures Pending(due + [t], now) == Pending(due, now) + (if t > now then [t] else [])
  {
    if due != [] {
      assert (due + [t])[1..] == due[1..] + [t];
      PendingSnoc(due[1..], t, now);
    }
  }

  lemma FiredSnoc(due: seq<int>, t: int, now: int)
    ensures Fired(due + [t], now) == Fired(due, now) + (if t <= now then [t] else [])
  {
    if due != [] {
      assert (due + [t])[1..] == due[1..] + [t];
      FiredSnoc(due[1..], t, now);
    }
  }
}
