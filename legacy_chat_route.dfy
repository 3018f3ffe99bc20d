/**
 * The legacy `POST /api/chat` endpoint: checks the provider and its key,
 * prepends a fixed system message, runs the provider client and relays its
 * deltas as OpenAI-style chunk frames, always ending with one `[DONE]`.
 *
 * The provider registry the endpoint imports is not part of this model: it
 * is a parameter mapping provider ids to what the endpoint reads from them.
 */
module LegacyChatRoute {
  import opened Wrappers
  import opened Text
  import opened Json
  import opened JsValues
  import opened LegacyProviderClient

  /** What the endpoint reads from a registry entry. */
  datatype ProviderInfo = ProviderInfo(baseUrl: Option<string>, requiresApiKey: bool)

  /** The request body after `request.json()`; `messages` is `None` when it cannot be spread. */
  datatype RequestBody =
    | Unparsable
    | Body(messages: Option<seq<Message>>, providerId: string, model: string, config: Option<ProviderConfig>)

  /** What the endpoint answers. */
  datatype Response =
    | JsonReply(status: int, body: Json)
    | EventStream(headers: seq<(string, string)>, frames: seq<string>)

  const SystemPrompt: Message := Message("system", "You are a helpful AI assistant.")

  const StreamHeaders: seq<(string, string)> :=
    [("Content-Type", "text/event-stream"), ("Cache-Control", "no-cache"), ("Connection", "keep-alive")]

  const InvalidKeyMessage: string := "Invalid API key. Please check your API key in Settings."
  const PaymentMessage: string := "Payment required. Your API key may need credits or a valid payment method."
  const RateLimitMessage: string := "Rate limit exceeded. Please wait and try again."
  const ProviderFailureMessage: string := "Provider service error. Please try again later."
  const UnknownErrorMessage: string := "Unknown error occurred"

  function ErrorBody(message: string): Json {
    JObj([("error", JStr(message))])
  }

  /** `!config?.apiKey`: no config, no key, or an empty key. */
  predicate KeyMissing(config: Option<ProviderConfig>) {
    config.None? || config.value.apiKey.None? || config.value.apiKey.value == ""
  }

  /** The message shown for a failure: first match on the status codes in an `Error`'s message. */
  function ErrorMessage(e: Thrown): (msg: string)
    ensures !e.ErrorValue? ==> msg == UnknownErrorMessage
    ensures e.ErrorValue? && Contains(e.message, "401") ==> msg == InvalidKeyMessage
    ensures e.ErrorValue? && !Contains(e.message, "401") && Contains(e.message, "402") ==> msg == PaymentMessage
    ensures (e.ErrorValue? && !Contains(e.message, "401") && !Contains(e.message, "402")
             && Contains(e.message, "429")) ==> msg == RateLimitMessage
    ensures (e.ErrorValue? && !Contains(e.message, "401") && !Contains(e.message, "402")
             && !Contains(e.message, "429") && Contains(e.message, "500")) ==> msg == ProviderFailureMessage
    ensures (e.ErrorValue? && !Contains(e.message, "401") && !Contains(e.message, "402")
             && !Contains(e.message, "429") && !Contains(e.message, "500")) ==> msg == e.message
  {
    match e
    case ErrorValue(m) =>
      if Contains(m, "401") then InvalidKeyMessage
      else if Contains(m, "402") then PaymentMessage
      else if Contains(m, "429") then RateLimitMessage
      else if Contains(m, "500") then ProviderFailureMessage
      else m
    case _ => UnknownErrorMessage
  }

  /** The frame carrying one content delta: `{"choices":[{"delta":{"content":…}}]}`. */
  function ContentFrame(content: Json): string {
    DataFrame(JObj([("choices", JArr([JObj([("delta", JObj([("content", content)]))])]))]))
  }

  /** The content of the error frame. */
  function ErrorContent(e: Thrown): string {
    "\U{274C} Error: " + ErrorMessage(e)
  }

  /** The frames of the relay: one per delta, one error frame on failure, then the sentinel. */
  function RelayFrames(deltas: seq<Json>, failure: Option<Thrown>): seq<string> {
    seq(|deltas|, k requires 0 <= k < |deltas| => ContentFrame(deltas[k]))
    + (if failure.Some? then [ContentFrame(JStr(ErrorContent(failure.value)))] else [])
    + [DoneFrame]
  }

  /** The stream always ends with exactly one sentinel, after one frame per delta and at most one error frame. */
  lemma RelayFramesShape(deltas: seq<Json>, failure: Option<Thrown>)
    ensures var frames := RelayFrames(deltas, failure);
            && |frames| == |deltas| + (if failure.Some? then 2 else 1)
            && (forall k :: 0 <= k < |deltas| ==> frames[k] == ContentFrame(deltas[k]))
            && (failure.Some? ==> frames[|deltas|] == ContentFrame(JStr(ErrorContent(failure.value))))
            && frames[|frames| - 1] == DoneFrame
            && (forall k :: 0 <= k < |frames| - 1 ==> frames[k] != DoneFrame)
  {
    var frames := RelayFrames(deltas, failure);
    forall k | 0 <= k < |frames| - 1
      ensures frames[k] != DoneFrame
    {
      if k < |deltas| {
        ObjectFrameIsNotDone(JObj([("choices", JArr([JObj([("delta", JObj([("content", deltas[k])]))])]))]));
      } else {
        ObjectFrameIsNotDone(JObj([("choices", JArr([JObj([("delta", JObj([("content", JStr(ErrorContent(failure.value)))]))])]))]));
      }
    }
  }

  /** The `for await` relay over what the client yielded, and the catch block after it. */
  method Relay(deltas: seq<Json>, failure: Option<Thrown>) returns (frames: seq<string>)
    ensures frames == RelayFrames(deltas, failure)
  {
    frames := [];
    var i := 0;
    while i < |deltas|
      invariant 0 <= i <= |deltas|
      invariant frames == seq(i, k requires 0 <= k < i => ContentFrame(deltas[k]))
    {
      frames := frames + [ContentFrame(deltas[i])];
      i := i + 1;
    }
    if failure.Some? {
      var errorMsg := UnknownErrorMessage;
      if failure.value.ErrorValue? {
        errorMsg := failure.value.message;
        if Contains(errorMsg, "401") {
          errorMsg := InvalidKeyMessage;
        } else if Contains(errorMsg, "402") {
          errorMsg := PaymentMessage;
        } else if Contains(errorMsg, "429") {
          errorMsg := RateLimitMessage;
        } else if Contains(errorMsg, "500") {
          errorMsg := ProviderFailureMessage;
        }
      }
      frames := frames + [ContentFrame(JStr("\U{274C} Error: " + errorMsg))];
    }
    frames := frames + [DoneFrame];
  }

  /** The specification of `POST`: the response, and the upstream request made if any. */
  function PostSpec(registry: map<string, ProviderInfo>, body: RequestBody, upstream: Upstream,
                    parse: string -> Option<Json>): (Response, Option<HttpRequest>)
  {
    match body
    case Unparsable => (JsonReply(500, ErrorBody("Internal error")), None)
    case Body(messages, providerId, model, config) =>
      if providerId !in registry then (JsonReply(400, ErrorBody("Provider not found")), None)
      else if registry[providerId].requiresApiKey && KeyMissing(config) then
        (JsonReply(401, ErrorBody("API key required")), None)
      else if messages.None? then (JsonReply(500, ErrorBody("Internal error")), None)
      else
        var run := StreamChatRun(providerId, registry[providerId].baseUrl.GetOr(""), config, model,
                                 [SystemPrompt] + messages.value, upstream, parse);
        (EventStream(StreamHeaders, RelayFrames(run.deltas, run.failure)), run.sent)
  }

  /** The legacy `POST` handler. */
  method Post(registry: map<string, ProviderInfo>, body: RequestBody, upstream: Upstream, parse: string -> Option<Json>)
    returns (response: Response, sent: Option<HttpRequest>)
    ensures (response, sent) == PostSpec(registry, body, upstream, parse)
  {
    if body.Unparsable? {
      return JsonReply(500, ErrorBody("Internal error")), None;
    }
    var provider := if body.providerId in registry then Some(registry[body.providerId]) else None;
    if provider.None? {
      return JsonReply(400, ErrorBody("Provider not found")), None;
    }
    if provider.value.requiresApiKey && KeyMissing(body.config) {
      return JsonReply(401, ErrorBody("API key required")), None;
    }
    if body.messages.None? {
      return JsonReply(500, ErrorBody("Internal error")), None;
    }
    var allMessages := [SystemPrompt] + body.messages.value;
    var deltas, failure;
    sent, deltas, failure := StreamChat(body.providerId, provider.value.baseUrl.GetOr(""), body.config,
                                        body.model, allMessages, upstream, parse);
    var frames := Relay(deltas, failure);
    response := EventStream(StreamHeaders, frames);
  }

  /** Rejected requests never reach the provider; an accepted one calls it whenever a config was sent. */
  lemma RejectionsSendNothing(registry: map<string, ProviderInfo>, body: RequestBody, upstream: Upstream,
                              parse: string -> Option<Json>)
    ensures var r := PostSpec(registry, body, upstream, parse);
            && (r.0.JsonReply? ==> r.1.None?)
            && (r.0.EventStream? ==> (r.1.Some? <==> body.config.Some?))
  {
    if body.Body? && body.providerId in registry && !(registry[body.providerId].requiresApiKey && KeyMissing(body.config))
       && body.messages.Some? {
      var run := StreamChatRun(body.providerId, registry[body.providerId].baseUrl.GetOr(""), body.config, body.model,
                               [SystemPrompt] + body.messages.value, upstream, parse);
      assert run.sent.Some? <==> body.config.Some?;
    }
  }

  /** Every stream starts from the fixed system message followed by the caller's messages. */
  lemma SystemPromptPrepended(registry: map<string, ProviderInfo>, messages: seq<Message>, providerId: string,
                              model: string, config: ProviderConfig, upstream: Upstream, parse: string -> Option<Json>)
    requires providerId in registry
    requires !registry[providerId].requiresApiKey || !KeyMissing(Some(config))
    ensures var v := VariantOf(providerId);
            var url := ResolveBaseUrl(config, registry[providerId].baseUrl.GetOr(""));
            PostSpec(registry, Body(Some(messages), providerId, model, Some(config)), upstream, parse).1 ==
              Some(Shape(v, providerId, url, model, [SystemPrompt] + messages, config.apiKey))
  {
  }

  /** Every status error names the status code. */
  lemma StatusErrorMentionsStatus(v: Variant, status: int, errorText: string)
    ensures Contains(StatusError(v, status, errorText), IntToString(status))
  {
    var code := IntToString(status);
    match v
    case OpenAICompatible =>
      ContainsMiddle("API error: ", code, " - " + errorText);
      assert "API error: " + code + (" - " + errorText) == "API error: " + code + " - " + errorText;
    case Ollama => ContainsMiddle("Ollama error: ", code, ""); assert "Ollama error: " + code + "" == "Ollama error: " + code;
    case Google => ContainsMiddle("Google error: ", code, ""); assert "Google error: " + code + "" == "Google error: " + code;
    case Anthropic => ContainsMiddle("Anthropic error: ", code, ""); assert "Anthropic error: " + code + "" == "Anthropic error: " + code;
    case HuggingFace => ContainsMiddle("HuggingFace error: ", code, ""); assert "HuggingFace error: " + code + "" == "HuggingFace error: " + code;
    case MiniMax => ContainsMiddle("MiniMax error: ", code, ""); assert "MiniMax error: " + code + "" == "MiniMax error: " + code;
  }

  /** Past the pre-stream checks, the response is the event stream of the run's deltas and failure. */
  lemma StreamedReply(registry: map<string, ProviderInfo>, messages: seq<Message>, providerId: string,
                      model: string, config: ProviderConfig, upstream: Upstream, parse: string -> Option<Json>)
    requires providerId in registry
    requires !registry[providerId].requiresApiKey || !KeyMissing(Some(config))
    ensures var run := StreamChatRun(providerId, registry[providerId].baseUrl.GetOr(""), Some(config), model,
                                     [SystemPrompt] + messages, upstream, parse);
            PostSpec(registry, Body(Some(messages), providerId, model, Some(config)), upstream, parse).0
              == EventStream(StreamHeaders, RelayFrames(run.deltas, run.failure))
  {
  }

  /** The invalid-key message is chosen for any status error of a 401 reply. */
  lemma UnauthorizedMessage(v: Variant, errorText: string)
    ensures ErrorMessage(ErrorValue(StatusError(v, 401, errorText))) == InvalidKeyMessage
  {
    assert IntToString(401) == "401" by {
      assert NatToString(4) == "4";
      assert NatToString(40) == "40";
    }
    StatusErrorMentionsStatus(v, 401, errorText);
  }

  /** A 401 from any provider becomes the invalid-key frame, right before the sentinel. */
  lemma UnauthorizedUpstreamFrame(registry: map<string, ProviderInfo>, messages: seq<Message>, providerId: string,
                                  model: string, config: ProviderConfig, errorText: string, parse: string -> Option<Json>)
    requires providerId in registry
    requires !registry[providerId].requiresApiKey || !KeyMissing(Some(config))
    ensures var r := PostSpec(registry, Body(Some(messages), providerId, model, Some(config)),
                              Reply(401, errorText, true, [], None), parse).0;
            r == EventStream(StreamHeaders, [ContentFrame(JStr("\U{274C} Error: " + InvalidKeyMessage)), DoneFrame])
  {
    var upstream := Reply(401, errorText, true, [], None);
    var base := registry[providerId].baseUrl.GetOr("");
    StreamedReply(registry, messages, providerId, model, config, upstream, parse);
    NotOkFails(providerId, base, config, model, [SystemPrompt] + messages, 401, errorText, true, [], None, parse);
    var e := ErrorValue(StatusError(VariantOf(providerId), 401, errorText));
    UnauthorizedMessage(VariantOf(providerId), errorText);
    assert RelayFrames([], Some(e)) == [ContentFrame(JStr(ErrorContent(e))), DoneFrame];
  }
}
