/**
 * The mock provider: a canned reply chosen by keyword, dressed in one of four
 * variations, and streamed as `data: ` frames one character at a time.
 *
 * `Math.random()` and `Date.now()` are parameters: `pick` is the variation
 * index, `roll` the random part of the token count and `now` the clock.
 */
module MockProvider {
  import opened Wrappers
  import opened Text
  import opened Json
  import opened ProviderTypes

  const Name: string := "mock"
  const BaseUrl: string := "https://api.mock.com"

  /** The mock adapter as the registry holds it. */
  const MockAdapter: Adapter := Adapter(Name, BaseUrl)

  const DefaultResponse: string := "This is a mock response from the AI provider."

  /** `mockResponses`, in the order `Object.entries` lists them. */
  const MockResponses: seq<(string, string)> := [
    ("default", DefaultResponse),
    ("help", "I can help you with various questions and tasks. What would you like to know?"),
    ("weather", "The weather seems nice today. Perfect for outdoor activities!"),
    ("coding", "I can help you with programming questions, debugging, and code reviews."),
    ("hello", "Hello! I am your AI assistant. How can I help you today?")
  ]

  /** The lower-cased content of the last message, or `default` when there is none or it is empty. */
  function LastMessage(messages: seq<Message>): (r: string)
    ensures r != ""
    ensures |messages| == 0 ==> r == "default"
    ensures |messages| > 0 && messages[|messages| - 1].content != "" ==>
              r == ToLowerAscii(messages[|messages| - 1].content)
  {
    if |messages| == 0 then "default"
    else
      var lowered := ToLowerAscii(messages[|messages| - 1].content);
      if lowered == "" then "default" else lowered
  }

  /** The reply of the first entry of `table` whose key occurs in `text`. */
  function FirstMatch(table: seq<(string, string)>, text: string): Option<string>
    decreases |table|
  {
    if |table| == 0 then None
    else if Contains(text, table[0].0) then Some(table[0].1)
    else FirstMatch(table[1..], text)
  }

  /** The reply the keyword search settles on. */
  function ResponseFor(lastMessage: string): string {
    FirstMatch(MockResponses, lastMessage).GetOr(DefaultResponse)
  }

  /** The keyword loop: the first key, in table order, that occurs in the lower-cased message. */
  method SelectResponse(lastMessage: string) returns (responseText: string)
    ensures responseText == ResponseFor(lastMessage)
  {
    responseText := MockResponses[0].1;
    var i := 0;
    while i < |MockResponses|
      invariant 0 <= i <= |MockResponses|
      invariant FirstMatch(MockResponses, lastMessage) == FirstMatch(MockResponses[i..], lastMessage)
      decreases |MockResponses| - i
    {
      var (key, response) := MockResponses[i];
      assert MockResponses[i..][1..] == MockResponses[i + 1..];
      if Contains(lastMessage, key) {
        responseText := response;
        return;
      }
      i := i + 1;
    }
  }

  /** The entry at `k` wins when its key occurs and no earlier key does. */
  lemma {:induction false} FirstMatchAt(table: seq<(string, string)>, text: string, k: nat)
    requires k < |table| && Contains(text, table[k].0)
    requires forall j :: 0 <= j < k ==> !Contains(text, table[j].0)
    ensures FirstMatch(table, text) == Some(table[k].1)
    decreases k
  {
    if k > 0 {
      assert !Contains(text, table[0].0);
      assert forall j :: 0 <= j < k - 1 ==> table[1..][j] == table[j + 1];
      FirstMatchAt(table[1..], text, k - 1);
    }
  }

  /** With no key occurring, nothing matches. */
  lemma {:induction false} FirstMatchNone(table: seq<(string, string)>, text: string)
    requires forall j :: 0 <= j < |table| ==> !Contains(text, table[j].0)
    ensures FirstMatch(table, text) == None
    decreases |table|
  {
    if |table| > 0 {
      assert !Contains(text, table[0].0);
      assert forall j :: 0 <= j < |table| - 1 ==> table[1..][j] == table[j + 1];
      FirstMatchNone(table[1..], text);
    }
  }

  /** The reply is the one of the first key, in the order default, help, weather, coding, hello, found in the message. */
  lemma KeywordPriority(lastMessage: string, k: nat)
    requires k < |MockResponses| && Contains(lastMessage, MockResponses[k].0)
    requires forall j :: 0 <= j < k ==> !Contains(lastMessage, MockResponses[j].0)
    ensures ResponseFor(lastMessage) == MockResponses[k].1
  {
    FirstMatchAt(MockResponses, lastMessage, k);
  }

  /** A message holding no key gets the default reply. */
  lemma NoKeywordDefault(lastMessage: string)
    requires forall j :: 0 <= j < |MockResponses| ==> !Contains(lastMessage, MockResponses[j].0)
    ensures ResponseFor(lastMessage) == DefaultResponse
  {
    FirstMatchNone(MockResponses, lastMessage);
  }

  /** With no messages the lookup text is `default`, whose own key selects the default reply. */
  lemma EmptyConversationDefault()
    ensures ResponseFor(LastMessage([])) == DefaultResponse
  {
    assert StartsWith("default", MockResponses[0].0);
  }

  /** The four variations; `pick` stands for `Math.floor(Math.random() * 4)`. */
  function Variation(responseText: string, pick: nat): (r: string)
    requires pick < 4
    ensures |r| >= |responseText| && r[|r| - |responseText|..] == responseText
  {
    if pick == 0 then responseText
    else if pick == 1 then "I think you're asking about: " + responseText
    else if pick == 2 then "Here's my thoughts on that: " + responseText
    else "Interesting question! " + responseText
  }

  /** The reply `chat` and `stream` both build for a request. */
  function FinalResponse(request: ChatRequest, pick: nat): string
    requires pick < 4
  {
    Variation(ResponseFor(LastMessage(request.messages)), pick)
  }

  /** `chat`: the reply, the request's model and `roll + 50` tokens (`roll` is `Math.floor(Math.random() * 100)`). */
  method Chat(request: ChatRequest, pick: nat, roll: nat) returns (response: ChatResponse)
    requires pick < 4 && roll < 100
    ensures response.content == FinalResponse(request, pick)
    ensures response.model == request.model
    ensures response.tokens.Some? && 50 <= response.tokens.value < 150
  {
    var lastMessage := LastMessage(request.messages);
    var responseText := SelectResponse(lastMessage);
    var finalResponse := Variation(responseText, pick);
    response := ChatResponse(finalResponse, request.model, Some(roll + 50));
  }

  // ---------------------------------------------------------------------------
  // stream
  // ---------------------------------------------------------------------------

  function StartPayload(model: string, created: nat): Json {
    JObj([("type", JStr("message_start")), ("model", JStr(model)), ("created", Int(created))])
  }

  function DeltaPayload(c: char): Json {
    JObj([("type", JStr("content_block_delta")), ("text", JStr([c]))])
  }

  function UsagePayload(length: nat): Json {
    JObj([("type", JStr("message_delta")),
          ("usage", JObj([("prompt_tokens", Int(10)), ("completion_tokens", Int(length)),
                          ("total_tokens", Int(10 + length))]))])
  }

  const StopPayload: Json := JObj([("type", JStr("message_stop"))])

  /** A character frame ends with a single newline, unlike the other frames. */
  function DeltaFrame(c: char): string {
    "data: " + Serialize(DeltaPayload(c)) + "\n"
  }

  /** The payload at index `k` of a stream whose reply is `text`, and the line ending after it. */
  function FrameAt(model: string, now: nat, text: string, k: nat): (Json, string) {
    if k == 0 then (StartPayload(model, now), "\n\n")
    else if k <= |text| then (DeltaPayload(text[k - 1]), "\n")
    else if k == |text| + 1 then (UsagePayload(|text|), "\n\n")
    else (StopPayload, "\n\n")
  }

  /** The text of one `enqueue`: the payload as a `data: ` line, then its line ending. */
  function Render(frame: (Json, string)): string {
    "data: " + Serialize(frame.0) + frame.1
  }

  /** The reads the stream yields, one per `enqueue`, for the reply `text`. */
  function StreamChunks(model: string, now: nat, text: string): seq<string> {
    seq(|text| + 3, k requires 0 <= k < |text| + 3 => Render(FrameAt(model, now, text, k)))
  }

  lemma DeltaChunkAt(model: string, now: nat, text: string, i: nat)
    requires i < |text|
    ensures Render(FrameAt(model, now, text, i + 1)) == DeltaFrame(text[i])
  {
  }

  /** The two frames after the characters: the usage frame, then the stop frame. */
  lemma EndFrames(model: string, now: nat, text: string)
    ensures Render(FrameAt(model, now, text, |text| + 1)) == DataFrame(UsagePayload(|text|))
    ensures Render(FrameAt(model, now, text, |text| + 2)) == DataFrame(StopPayload)
  {
  }

  /** `stream`: the start frame, one frame per character, the usage frame and the stop frame. */
  method Stream(request: ChatRequest, pick: nat, now: nat) returns (chunks: seq<string>)
    requires pick < 4
    ensures chunks == StreamChunks(request.model, now, FinalResponse(request, pick))
  {
    var lastMessage := LastMessage(request.messages);
    var responseText := SelectResponse(lastMessage);
    var finalResponse := Variation(responseText, pick);
    chunks := EnqueueFrames(request.model, now, finalResponse);
  }

  /** The `enqueue` calls of `stream` for the reply `finalResponse`, in order. */
  method EnqueueFrames(model: string, now: nat, finalResponse: string) returns (chunks: seq<string>)
    ensures chunks == StreamChunks(model, now, finalResponse)
  {
    chunks := [DataFrame(StartPayload(model, now))];
    for i := 0 to |finalResponse|
      invariant |chunks| == i + 1
      invariant forall k :: 0 <= k <= i ==> chunks[k] == Render(FrameAt(model, now, finalResponse, k))
    {
      DeltaChunkAt(model, now, finalResponse, i);
      chunks := chunks + [DeltaFrame(finalResponse[i])];
    }
    EndFrames(model, now, finalResponse);
    chunks := chunks + [DataFrame(UsagePayload(|finalResponse|)), DataFrame(StopPayload)];
  }

  /** The payloads of the stream's frames, in order. */
  function StreamPayloads(model: string, now: nat, text: string): seq<Json> {
    seq(|text| + 3, k requires 0 <= k < |text| + 3 => FrameAt(model, now, text, k).0)
  }

  /** The `text` members of the `content_block_delta` payloads, joined. */
  function DeltaTexts(payloads: seq<Json>): string
    decreases |payloads|
  {
    if |payloads| == 0 then ""
    else
      var p := payloads[|payloads| - 1];
      var text := if Get(p, "type") == Some(JStr("content_block_delta")) then
                    match Get(p, "text") case Some(JStr(t)) => t case _ => ""
                  else "";
      DeltaTexts(payloads[..|payloads| - 1]) + text
  }

  /** Each read is the `data: ` line of its payload; only the character frames lack the blank line after it. */
  lemma StreamFramesCarryPayloads(model: string, now: nat, text: string)
    ensures var chunks := StreamChunks(model, now, text);
            var payloads := StreamPayloads(model, now, text);
            |chunks| == |payloads| == |text| + 3
            && forall k :: 0 <= k < |chunks| ==>
                 chunks[k] == "data: " + Serialize(payloads[k]) + "\n" + (if 1 <= k <= |text| then "" else "\n")
  {
    var chunks := StreamChunks(model, now, text);
    var payloads := StreamPayloads(model, now, text);
    forall k | 0 <= k < |chunks|
      ensures chunks[k] == "data: " + Serialize(payloads[k]) + "\n" + (if 1 <= k <= |text| then "" else "\n")
    {
      var line := "data: " + Serialize(payloads[k]);
      if 1 <= k <= |text| {
        assert line + "\n" + "" == line + "\n";
      } else {
        assert line + "\n" + "\n" == line + "\n\n";
      }
    }
  }

  /** Joining the `text` of the character frames gives back the reply, character for character. */
  lemma {:induction false} DeltaTextsRebuildReply(model: string, now: nat, text: string)
    ensures DeltaTexts(StreamPayloads(model, now, text)) == text
  {
    var payloads := StreamPayloads(model, now, text);
    var n := |payloads|;
    LookupFound(StopPayload.members, 0, "type");
    assert Get(payloads[n - 1], "type") == Some(JStr("message_stop"));
    assert payloads[..n - 1] == StreamPayloads(model, now, text)[..n - 1];
    var u := UsagePayload(|text|);
    LookupFound(u.members, 0, "type");
    assert Get(payloads[n - 2], "type") == Some(JStr("message_delta"));
    DeltaTextsPrefix(model, now, text, |text|);
    assert payloads[..n - 1][..n - 2] == payloads[..|text| + 1];
    assert text[..|text|] == text;
  }

  /** The character frames up to `i` rebuild the first `i` characters. */
  lemma {:induction false} DeltaTextsPrefix(model: string, now: nat, text: string, i: nat)
    requires i <= |text|
    ensures DeltaTexts(StreamPayloads(model, now, text)[..i + 1]) == text[..i]
    decreases i
  {
    var payloads := StreamPayloads(model, now, text);
    if i == 0 {
      var s := StartPayload(model, now);
      LookupFound(s.members, 0, "type");
      assert payloads[..1] == [s];
      assert [s][..0] == [];
    } else {
      DeltaTextsPrefix(model, now, text, i - 1);
      var d := DeltaPayload(text[i - 1]);
      assert payloads[i] == d;
      LookupFound(d.members, 0, "type");
      LookupFound(d.members, 1, "text");
      assert payloads[..i + 1][..i] == payloads[..i];
      assert text[..i] == text[..i - 1] + [text[i - 1]];
    }
  }

  /** The usage frame counts the reply's characters: 10 prompt tokens, and 10 more in the total. */
  lemma UsageCountsReply(text: string)
    ensures var usage := Get(UsagePayload(|text|), "usage");
            usage.Some? && Get(usage.value, "prompt_tokens") == Some(Int(10))
            && Get(usage.value, "completion_tokens") == Some(Int(|text|))
            && Get(usage.value, "total_tokens") == Some(Int(10 + |text|))
  {
    var u := UsagePayload(|text|);
    LookupFound(u.members, 1, "usage");
    var m := u.members[1].1.members;
    LookupFound(m, 0, "prompt_tokens");
    LookupFound(m, 1, "completion_tokens");
    LookupFound(m, 2, "total_tokens");
  }

  /** `validateKey`: any non-empty key is accepted. */
  function ValidateKey(key: string): (valid: bool)
    ensures valid <==> |key| > 0
  {
    |key| > 0
  }
}
