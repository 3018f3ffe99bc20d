/**
 * The request schemas and helpers of the security layer: which messages and
 * chat requests the schemas accept, the provider and model name formats, the
 * chained-`replace` HTML escaping, and the allow-list checks.
 *
 * Only acceptance is modelled, not the schema library's issue lists.
 */
module Validation {
  import opened Wrappers
  import opened Text
  import opened ProviderTypes
  import Json

  // ---------------------------------------------------------------------------
  // Searching
  // ---------------------------------------------------------------------------

  /** `s.indexOf(sub, from)`: the first occurrence of `sub` at or after `from`, or -1. */
  function FindFrom(s: string, sub: string, from: nat): (i: int)
    ensures i == -1 || (from <= i && OccursAt(s, sub, i))
    ensures i == -1 ==> forall j :: from <= j ==> !OccursAt(s, sub, j)
    ensures i >= 0 ==> forall j :: from <= j < i ==> !OccursAt(s, sub, j)
    decreases |s| - from
  {
    if from + |sub| > |s| then -1
    else if s[from..from + |sub|] == sub then from
    else FindFrom(s, sub, from + 1)
  }

  // ---------------------------------------------------------------------------
  // messageSchema
  // ---------------------------------------------------------------------------

  /** `messageRoleSchema`. */
  predicate IsRole(role: string) {
    role == "user" || role == "assistant" || role == "system"
  }

  /**
   * A match of `/<script[\s\S]*?>[\s\S]*?<\/script>/i` in the lower-cased
   * text `l`: `<script` at `i`, a `>` at `j` after it, `</script>` at `k`
   * after that. Laziness changes which match is found, not whether one is.
   */
  predicate ScriptBlockAt(l: string, i: int, j: int, k: int) {
    OccursAt(l, "<script", i) && i + 7 <= j && OccursAt(l, ">", j) && j + 1 <= k && OccursAt(l, "</script>", k)
  }

  /** The search: the first `<script`, the first `>` after it, the first `</script>` after that. */
  function HasScriptBlock(content: string): bool {
    ScriptSearch(ToLowerAscii(content))
  }

  /** The three searches over the lower-cased text. */
  predicate ScriptSearch(l: string) {
    var i := FindFrom(l, "<script", 0);
    if i < 0 then false
    else
      var j := FindFrom(l, ">", i + 7);
      if j < 0 then false else FindFrom(l, "</script>", j + 1) >= 0
  }

  /** Searching from the first occurrences finds a script block exactly when there is one anywhere. */
  lemma ScriptBlockIff(content: string)
    ensures HasScriptBlock(content) <==> exists i, j, k :: ScriptBlockAt(ToLowerAscii(content), i, j, k)
  {
    var l := ToLowerAscii(content);
    if ScriptSearch(l) {
      ScriptSearchSound(l);
    }
    if i, j, k :| ScriptBlockAt(l, i, j, k) {
      ScriptSearchComplete(l, i, j, k);
    }
  }

  /** What the three searches find is a script block. */
  lemma ScriptSearchSound(l: string)
    requires ScriptSearch(l)
    ensures exists i, j, k :: ScriptBlockAt(l, i, j, k)
  {
    var i0 := FindFrom(l, "<script", 0);
    var j0 := FindFrom(l, ">", i0 + 7);
    var k0 := FindFrom(l, "</script>", j0 + 1);
    assert ScriptBlockAt(l, i0, j0, k0);
  }

  /** Any script block makes each of the three searches succeed, no later than the block's own parts. */
  lemma ScriptSearchComplete(l: string, i: int, j: int, k: int)
    requires ScriptBlockAt(l, i, j, k)
    ensures ScriptSearch(l)
  {
    var i0 := FindFrom(l, "<script", 0);
    assert 0 <= i0 <= i;
    var j0 := FindFrom(l, ">", i0 + 7);
    assert i0 + 7 <= j0 <= j;
    var k0 := FindFrom(l, "</script>", j0 + 1);
    assert k0 >= 0;
  }

  /**
   * A message as the schema receives it. `timestamp` is the JSON value of the
   * member, `None` when the member is left out.
   */
  datatype MessageInput = MessageInput(role: string, content: string, timestamp: Option<Json.Json>)

  /** `z.number().optional()`: the member is left out or holds a number (`null` is refused). */
  predicate TimestampAccepted(timestamp: Option<Json.Json>) {
    timestamp.None? || timestamp.value.JNum?
  }

  /** `messageSchema` accepts the message. */
  function MessageAccepted(m: MessageInput): (ok: bool)
    ensures ok <==> IsRole(m.role) && 1 <= |m.content| <= 100000
                    && !(exists i, j, k :: ScriptBlockAt(ToLowerAscii(m.content), i, j, k))
                    && (m.timestamp.None? || m.timestamp.value.JNum?)
  {
    ScriptBlockIff(m.content);
    IsRole(m.role) && 1 <= |m.content| && |m.content| <= 100000 && !HasScriptBlock(m.content)
    && TimestampAccepted(m.timestamp)
  }

  // ---------------------------------------------------------------------------
  // chatRequestSchema
  // ---------------------------------------------------------------------------

  /** No system message follows a non-system one. */
  predicate SystemMessagesFirst(messages: seq<MessageInput>) {
    forall i, j :: 0 <= i < j < |messages| && messages[i].role != "system" ==> messages[j].role != "system"
  }

  /** The refinement's loop, with its `sawNonSystem` flag. */
  method CheckSystemFirst(messages: seq<MessageInput>) returns (ok: bool)
    ensures ok <==> SystemMessagesFirst(messages)
  {
    var sawNonSystem := false;
    for n := 0 to |messages|
      invariant SystemMessagesFirst(messages[..n])
      invariant sawNonSystem <==> exists i :: 0 <= i < n && messages[i].role != "system"
    {
      if messages[n].role == "system" && sawNonSystem {
        var i :| 0 <= i < n && messages[i].role != "system";
        assert !SystemMessagesFirst(messages) by {
          assert messages[i].role != "system" && messages[n].role == "system";
        }
        return false;
      }
      if messages[n].role != "system" {
        sawNonSystem := true;
      }
      assert forall i :: 0 <= i <= n ==> messages[..n + 1][i] == messages[i];
    }
    assert messages[..|messages|] == messages;
    return true;
  }

  /** The first `p` messages are system messages and the others are not. */
  predicate SplitsAt(messages: seq<MessageInput>, p: int) {
    0 <= p <= |messages|
    && (forall i :: 0 <= i < p ==> messages[i].role == "system")
    && (forall i :: p <= i < |messages| ==> messages[i].role != "system")
  }

  /** The ordering rule says exactly that the list is some system messages followed by only non-system ones. */
  lemma SystemMessagesFirstIsPrefix(messages: seq<MessageInput>)
    ensures SystemMessagesFirst(messages) <==> exists p :: SplitsAt(messages, p)
  {
    if SystemMessagesFirst(messages) {
      var p := 0;
      while p < |messages| && messages[p].role == "system"
        invariant 0 <= p <= |messages|
        invariant forall i :: 0 <= i < p ==> messages[i].role == "system"
      {
        p := p + 1;
      }
      forall i | p < i < |messages| ensures messages[i].role != "system" {
        assert messages[p].role != "system";
      }
      assert SplitsAt(messages, p);
    }
  }

  /** The request body as it arrives; `stream` may be left out. */
  datatype RequestInput = RequestInput(messages: seq<MessageInput>, model: string, provider: Option<string>, stream: Option<bool>)

  /** The request after parsing, with `stream` resolved. */
  datatype ParsedRequest = ParsedRequest(messages: seq<MessageInput>, model: string, provider: Option<string>, stream: bool)

  /** `chatRequestSchema.safeParse`: the parsed request, or `None` when any constraint fails. */
  function ParseChatRequest(input: RequestInput): (r: Option<ParsedRequest>)
    ensures r.Some? <==>
              1 <= |input.messages| <= 100
              && (forall k :: 0 <= k < |input.messages| ==> MessageAccepted(input.messages[k]))
              && SystemMessagesFirst(input.messages)
              && 1 <= |input.model| <= 100
              && (input.provider.None? || 1 <= |input.provider.value| <= 50)
    ensures r.Some? ==> r.value.messages == input.messages && r.value.model == input.model
                        && r.value.provider == input.provider
                        && (r.value.stream <==> input.stream != Some(false))
  {
    if 1 <= |input.messages| && |input.messages| <= 100
       && (forall k :: 0 <= k < |input.messages| ==> MessageAccepted(input.messages[k]))
       && SystemMessagesFirst(input.messages)
       && 1 <= |input.model| && |input.model| <= 100
       && (input.provider.None? || (1 <= |input.provider.value| && |input.provider.value| <= 50))
    then Some(ParsedRequest(input.messages, input.model, input.provider, input.stream.GetOr(true)))
    else None
  }

  // ---------------------------------------------------------------------------
  // Name schemas
  // ---------------------------------------------------------------------------

  /** `[a-zA-Z0-9_-]` */
  predicate IsProviderNameChar(c: char) {
    IsWordChar(c) || c == '-'
  }

  /** `[a-zA-Z0-9._-]` */
  predicate IsModelNameChar(c: char) {
    IsWordChar(c) || c == '.' || c == '-'
  }

  /**
   * `/^[…]+$/.test(s)` without the `m` flag: one character of the class, then
   * either the end of the input or another match of the same pattern.
   */
  function MatchesPlus(s: string, inClass: char -> bool): (ok: bool)
    ensures ok <==> |s| >= 1 && forall k :: 0 <= k < |s| ==> inClass(s[k])
    decreases |s|
  {
    if |s| == 0 then false
    else if !inClass(s[0]) then false
    else if |s| == 1 then true
    else
      var ok := MatchesPlus(s[1..], inClass);
      assert forall k :: 1 <= k < |s| ==> s[k] == s[1..][k - 1];
      ok
  }

  /** `providerNameSchema`: `min(1)`, `max(50)`, then `/^[a-zA-Z0-9_-]+$/`. */
  function ValidProviderName(name: string): (ok: bool)
    ensures ok <==> 1 <= |name| <= 50 && forall k :: 0 <= k < |name| ==> IsProviderNameChar(name[k])
  {
    1 <= |name| && |name| <= 50 && MatchesPlus(name, IsProviderNameChar)
  }

  /** `modelNameSchema`: `min(1)`, `max(100)`, then `/^[a-zA-Z0-9._-]+$/`. */
  function ValidModelName(name: string): (ok: bool)
    ensures ok <==> 1 <= |name| <= 100 && forall k :: 0 <= k < |name| ==> IsModelNameChar(name[k])
  {
    1 <= |name| && |name| <= 100 && MatchesPlus(name, IsModelNameChar)
  }

  // ---------------------------------------------------------------------------
  // sanitizeHtml (chained replace)
  // ---------------------------------------------------------------------------

  /** The six characters that are escaped. */
  predicate IsHtmlSpecial(c: char) {
    c == '&' || c == '<' || c == '>' || c == '"' || c == '\'' || c == '/'
  }

  /** `s.replace(/c/g, entity)`: every `c` replaced, the rest kept, left to right. */
  function ReplaceAll(s: string, c: char, entity: string): string
    decreases |s|
  {
    if |s| == 0 then ""
    else (if s[0] == c then entity else [s[0]]) + ReplaceAll(s[1..], c, entity)
  }

  /** Replacing a character that does not occur changes nothing. */
  lemma {:induction false} ReplaceAllIdentity(s: string, c: char, entity: string)
    requires c !in s
    ensures ReplaceAll(s, c, entity) == s
    decreases |s|
  {
    if |s| > 0 {
      assert s == [s[0]] + s[1..];
      ReplaceAllIdentity(s[1..], c, entity);
    }
  }

  /** A character that the replacement removes or that was never there is absent afterwards, unless the entity brings it. */
  lemma {:induction false} ReplaceAllAvoids(s: string, c: char, entity: string, d: char)
    requires d == c || d !in s
    requires d !in entity
    ensures d !in ReplaceAll(s, c, entity)
    decreases |s|
  {
    if |s| > 0 {
      ReplaceAllAvoids(s[1..], c, entity, d);
    }
  }

  /** Replacing distributes over concatenation. */
  lemma {:induction false} ReplaceAllAppend(a: string, b: string, c: char, entity: string)
    ensures ReplaceAll(a + b, c, entity) == ReplaceAll(a, c, entity) + ReplaceAll(b, c, entity)
    decreases |a|
  {
    if |a| == 0 {
      assert a + b == b;
    } else {
      assert (a + b)[1..] == a[1..] + b;
      ReplaceAllAppend(a[1..], b, c, entity);
    }
  }

  /** The chain of replacements of `sanitizeHtml`, from `&` to `/`. */
  function Chain(content: string): string {
    ReplaceAll(ReplaceAll(ReplaceAll(ReplaceAll(ReplaceAll(ReplaceAll(
      content, '&', "&amp;"), '<', "&lt;"), '>', "&gt;"), '"', "&quot;"), '\'', "&#x27;"), '/', "&#x2F;")
  }

  /** No replacement brings back a character an earlier one removed. */
  lemma ChainAvoids(content: string)
    ensures '<' !in Chain(content) && '>' !in Chain(content) && '"' !in Chain(content)
    ensures '\'' !in Chain(content) && '/' !in Chain(content)
  {
    var s1 := ReplaceAll(content, '&', "&amp;");
    var s2 := ReplaceAll(s1, '<', "&lt;");
    var s3 := ReplaceAll(s2, '>', "&gt;");
    var s4 := ReplaceAll(s3, '"', "&quot;");
    var s5 := ReplaceAll(s4, '\'', "&#x27;");
    // Each character is removed by its own step and no later entity brings it back.
    ReplaceAllAvoids(s1, '<', "&lt;", '<');
    ReplaceAllAvoids(s2, '>', "&gt;", '<');
    ReplaceAllAvoids(s2, '>', "&gt;", '>');
    ReplaceAllAvoids(s3, '"', "&quot;", '<');
    ReplaceAllAvoids(s3, '"', "&quot;", '>');
    ReplaceAllAvoids(s3, '"', "&quot;", '"');
    ReplaceAllAvoids(s4, '\'', "&#x27;", '<');
    ReplaceAllAvoids(s4, '\'', "&#x27;", '>');
    ReplaceAllAvoids(s4, '\'', "&#x27;", '"');
    ReplaceAllAvoids(s4, '\'', "&#x27;", '\'');
    ReplaceAllAvoids(s5, '/', "&#x2F;", '<');
    ReplaceAllAvoids(s5, '/', "&#x2F;", '>');
    ReplaceAllAvoids(s5, '/', "&#x2F;", '"');
    ReplaceAllAvoids(s5, '/', "&#x2F;", '\'');
    ReplaceAllAvoids(s5, '/', "&#x2F;", '/');
  }

  /** Text without any of the six characters goes through the chain unchanged. */
  lemma ChainIdentity(content: string)
    ensures (forall k :: 0 <= k < |content| ==> !IsHtmlSpecial(content[k])) ==> Chain(content) == content
  {
    if forall k :: 0 <= k < |content| ==> !IsHtmlSpecial(content[k]) {
      assert forall d :: d in "&<>\"'/" ==> d !in content;
      ReplaceAllIdentity(content, '&', "&amp;");
      ReplaceAllIdentity(content, '<', "&lt;");
      ReplaceAllIdentity(content, '>', "&gt;");
      ReplaceAllIdentity(content, '"', "&quot;");
      ReplaceAllIdentity(content, '\'', "&#x27;");
      ReplaceAllIdentity(content, '/', "&#x2F;");
    }
  }

  /** `sanitizeHtml`: `&` first, then `<`, `>`, `"`, `'` and `/`. */
  function SanitizeHtml(content: string): (r: string)
    ensures '<' !in r && '>' !in r && '"' !in r && '\'' !in r && '/' !in r
    ensures (forall k :: 0 <= k < |content| ==> !IsHtmlSpecial(content[k])) ==> r == content
  {
    ChainAvoids(content);
    ChainIdentity(content);
    Chain(content)
  }

  /** The chained replacements act on each part of a concatenation separately. */
  lemma SanitizeHtmlAppend(a: string, b: string)
    ensures SanitizeHtml(a + b) == SanitizeHtml(a) + SanitizeHtml(b)
  {
    var x1, y1 := ReplaceAll(a, '&', "&amp;"), ReplaceAll(b, '&', "&amp;");
    ReplaceAllAppend(a, b, '&', "&amp;");
    var x2, y2 := ReplaceAll(x1, '<', "&lt;"), ReplaceAll(y1, '<', "&lt;");
    ReplaceAllAppend(x1, y1, '<', "&lt;");
    var x3, y3 := ReplaceAll(x2, '>', "&gt;"), ReplaceAll(y2, '>', "&gt;");
    ReplaceAllAppend(x2, y2, '>', "&gt;");
    var x4, y4 := ReplaceAll(x3, '"', "&quot;"), ReplaceAll(y3, '"', "&quot;");
    ReplaceAllAppend(x3, y3, '"', "&quot;");
    var x5, y5 := ReplaceAll(x4, '\'', "&#x27;"), ReplaceAll(y4, '\'', "&#x27;");
    ReplaceAllAppend(x4, y4, '\'', "&#x27;");
    ReplaceAllAppend(x5, y5, '/', "&#x2F;");
  }

  /** Valid provider and model names pass through the escaping unchanged. */
  lemma NamesSurviveSanitizing(name: string)
    requires ValidProviderName(name) || ValidModelName(name)
    ensures SanitizeHtml(name) == name
  {
    forall k | 0 <= k < |name| ensures !IsHtmlSpecial(name[k]) {
      assert IsProviderNameChar(name[k]) || IsModelNameChar(name[k]);
    }
  }

  // ---------------------------------------------------------------------------
  // Allow lists
  // ---------------------------------------------------------------------------

  /** `availableProviders.includes(providerName)`, scanning from the front. */
  function IsValidProvider(providerName: string, availableProviders: seq<string>): (ok: bool)
    ensures ok <==> exists k :: 0 <= k < |availableProviders| && availableProviders[k] == providerName
    decreases |availableProviders|
  {
    if |availableProviders| == 0 then false
    else if availableProviders[0] == providerName then true
    else
      var rest := IsValidProvider(providerName, availableProviders[1..]);
      assert forall k :: 1 <= k < |availableProviders| ==> availableProviders[k] == availableProviders[1..][k - 1];
      rest
  }

  /** `availableModels.includes(modelName)`. */
  function IsValidModel(modelName: string, availableModels: seq<string>): (ok: bool)
    ensures ok <==> modelName in availableModels
  {
    IsValidProvider(modelName, availableModels)
  }
}
