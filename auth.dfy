/**
 * API-key authentication of the protected endpoints: the decision table of
 * `validateApiKey` with the environment and the request header as inputs,
 * and the constant-time comparison it relies on.
 */
module Auth {
  import opened Wrappers

  /** What `validateApiKey` does: return `true`, or throw `error(status, message)`. */
  datatype AuthOutcome = Allowed | Rejected(status: int, message: string)

  /**
   * `process.env.API_CHAT_KEY || import.meta.env?.VITE_API_CHAT_KEY || ""`:
   * the first configured, non-empty key.
   */
  function ConfiguredKey(serverKey: Option<string>, clientKey: Option<string>): (key: string)
    ensures serverKey.Some? && serverKey.value != "" ==> key == serverKey.value
    ensures (serverKey.None? || serverKey.value == "") && clientKey.Some? ==> key == clientKey.value
    ensures (serverKey.None? || serverKey.value == "") && clientKey.None? ==> key == ""
  {
    if serverKey.Some? && serverKey.value != "" then serverKey.value
    else if clientKey.Some? && clientKey.value != "" then clientKey.value
    else ""
  }

  /** `x ^ y` on non-negative integers, bit by bit from the lowest. */
  function Xor(x: nat, y: nat): nat
    decreases x + y
  {
    if x == 0 && y == 0 then 0 else 2 * Xor(x / 2, y / 2) + (x % 2 + y % 2) % 2
  }

  /** `x | y` on non-negative integers, bit by bit from the lowest. */
  function Or(x: nat, y: nat): nat
    decreases x + y
  {
    if x == 0 && y == 0 then 0 else 2 * Or(x / 2, y / 2) + (if x % 2 == 1 || y % 2 == 1 then 1 else 0)
  }

  /** Two codes XOR to zero exactly when they are equal. */
  lemma {:induction false} XorZero(x: nat, y: nat)
    ensures Xor(x, y) == 0 <==> x == y
    decreases x + y
  {
    if !(x == 0 && y == 0) {
      XorZero(x / 2, y / 2);
    }
  }

  /** OR-ing is zero exactly when both sides are. */
  lemma {:induction false} OrZero(x: nat, y: nat)
    ensures Or(x, y) == 0 <==> x == 0 && y == 0
    decreases x + y
  {
    if !(x == 0 && y == 0) {
      OrZero(x / 2, y / 2);
    }
  }

  /**
   * `constantTimeEqual`: different lengths return at once; otherwise every
   * index is visited, OR-ing the XOR of the two codes into `result`.
   */
  method ConstantTimeEqual(a: string, b: string) returns (equal: bool)
    ensures equal <==> a == b
  {
    if |a| != |b| {
      return false;
    }
    var result: nat := 0;
    for i := 0 to |a|
      invariant result == 0 <==> a[..i] == b[..i]
    {
      XorZero(a[i] as int, b[i] as int);
      OrZero(result, Xor(a[i] as int, b[i] as int));
      assert a[..i + 1] == a[..i] + [a[i]] && b[..i + 1] == b[..i] + [b[i]];
      assert a[..i + 1] == b[..i + 1] <==> a[..i] == b[..i] && a[i] == b[i];
      result := Or(result, Xor(a[i] as int, b[i] as int));
    }
    assert a[..|a|] == a && b[..|b|] == b;
    return result == 0;
  }

  const KeyNotConfigured: string := "Server configuration error: API key not configured"
  const KeyRequired: string := "Unauthorized: API key required"
  const KeyInvalid: string := "Forbidden: Invalid API key"

  /**
   * The decision of `validateApiKey` from the configured key, the mode and the
   * `x-api-key` header (`None` when absent; an empty header counts as absent).
   */
  function Decision(apiKey: string, devMode: bool, header: Option<string>): (r: AuthOutcome)
    ensures r == Allowed <==> (apiKey == "" && devMode) || (apiKey != "" && header == Some(apiKey))
    ensures r.Rejected? ==> r.status in {500, 401, 403}
    ensures r == Rejected(500, KeyNotConfigured) <==> apiKey == "" && !devMode
    ensures r == Rejected(401, KeyRequired) <==> apiKey != "" && (header.None? || header.value == "")
    ensures r == Rejected(403, KeyInvalid) <==> apiKey != "" && header.Some? && header.value != "" && header.value != apiKey
  {
    if apiKey == "" then (if devMode then Allowed else Rejected(500, KeyNotConfigured))
    else if header.None? || header.value == "" then Rejected(401, KeyRequired)
    else if header.value != apiKey then Rejected(403, KeyInvalid)
    else Allowed
  }

  /** `validateApiKey`, step by step as written, including its unreachable inner development-mode branch. */
  method ValidateApiKey(apiKey: string, devMode: bool, header: Option<string>) returns (r: AuthOutcome)
    ensures r == Decision(apiKey, devMode, header)
  {
    if apiKey == "" && devMode {
      return Allowed;
    }
    if apiKey == "" {
      if devMode {
        assert false;
      }
      return Rejected(500, KeyNotConfigured);
    }
    if header.None? || header.value == "" {
      return Rejected(401, KeyRequired);
    }
    var equal := ConstantTimeEqual(header.value, apiKey);
    if !equal {
      return Rejected(403, KeyInvalid);
    }
    return Allowed;
  }

  /** `requireAuth`: the same check, its `true` result discarded. */
  method RequireAuth(apiKey: string, devMode: bool, header: Option<string>) returns (rejection: Option<(int, string)>)
    ensures rejection.None? <==> Decision(apiKey, devMode, header) == Allowed
    ensures rejection.Some? ==> Decision(apiKey, devMode, header) == Rejected(rejection.value.0, rejection.value.1)
  {
    var outcome := ValidateApiKey(apiKey, devMode, header);
    if outcome.Rejected? {
      return Some((outcome.status, outcome.message));
    }
    return None;
  }

  /** With no key configured in development mode the header plays no part. */
  lemma DevModeIgnoresHeader(devMode: bool, h1: Option<string>, h2: Option<string>)
    requires devMode
    ensures Decision("", devMode, h1) == Decision("", devMode, h2) == Allowed
  {
  }

  /** With a key configured the mode plays no part. */
  lemma ConfiguredKeyIgnoresMode(apiKey: string, header: Option<string>)
    requires apiKey != ""
    ensures Decision(apiKey, true, header) == Decision(apiKey, false, header)
  {
  }
}
