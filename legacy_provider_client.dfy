/**
 * The provider client of the legacy chat endpoint: `streamChat` picks a
 * variant from the provider id, the variant shapes the upstream request
 * (URL, headers, body) and then decodes the upstream body into content
 * deltas while reading it chunk by chunk.
 *
 * The network is a parameter: `Upstream` is what `fetch` and the body reader
 * deliver, already decoded to text; `parse` stands for `JSON.parse`.
 */
module LegacyProviderClient {
  import opened Wrappers
  import opened Text
  import opened Json
  import opened JsValues

  /** A chat message as the legacy endpoint receives it (roles are not validated there). */
  datatype Message = Message(role: string, content: string)

  /** The caller's per-request settings. */
  datatype ProviderConfig = ProviderConfig(apiKey: Option<string>, baseUrl: Option<string>)

  /** The upstream call a variant makes: always a POST. */
  datatype HttpRequest = HttpRequest(url: string, headers: seq<(string, string)>, body: Json)

  /** What the network does with the upstream call. */
  datatype Upstream =
    /** `fetch` itself rejects with this value. */
    | Unreachable(reason: Thrown)
    /**
     * A response: its status, the text `response.text()` reads when the
     * status is not 2xx, whether it has a body, the body's reads in order,
     * and the value a read rejects with after them, if any.
     */
    | Reply(status: int, errorText: string, hasBody: bool, chunks: seq<string>, readError: Option<Thrown>)

  /** The one variant of each provider family. */
  datatype Variant = OpenAICompatible | Ollama | Google | Anthropic | HuggingFace | MiniMax

  // ---------------------------------------------------------------------------
  // Dispatch
  // ---------------------------------------------------------------------------

  /** The variant `streamChat` runs for a provider id; every other id is OpenAI-compatible. */
  function VariantOf(providerId: string): (v: Variant)
    ensures v == Ollama <==> providerId == "ollama"
    ensures v == Google <==> providerId == "google"
    ensures v == Anthropic <==> providerId == "anthropic"
    ensures v == HuggingFace <==> providerId == "huggingface"
    ensures v == MiniMax <==> providerId == "minimax"
    ensures v == OpenAICompatible <==>
              providerId !in {"ollama", "google", "anthropic", "huggingface", "minimax"}
  {
    if providerId == "ollama" then Ollama
    else if providerId == "google" then Google
    else if providerId == "anthropic" then Anthropic
    else if providerId == "huggingface" then HuggingFace
    else if providerId == "minimax" then MiniMax
    else OpenAICompatible
  }

  /** `customBaseUrl || this.baseUrl`: a non-empty configured base URL wins. */
  function ResolveBaseUrl(config: ProviderConfig, registryBaseUrl: string): (url: string)
    ensures config.baseUrl.Some? && config.baseUrl.value != "" ==> url == config.baseUrl.value
    ensures config.baseUrl.None? || config.baseUrl.value == "" ==> url == registryBaseUrl
  {
    match config.baseUrl
    case Some(u) => if u != "" then u else registryBaseUrl
    case None => registryBaseUrl
  }

  /** A possibly undefined string inside a template literal. */
  function Show(s: Option<string>): string {
    s.GetOr("undefined")
  }

  // ---------------------------------------------------------------------------
  // Request shaping
  // ---------------------------------------------------------------------------

  function MessageJson(m: Message): Json {
    JObj([("role", JStr(m.role)), ("content", JStr(m.content))])
  }

  function MessagesJson(ms: seq<Message>): (r: Json)
    ensures r.JArr? && |r.items| == |ms|
    ensures forall k :: 0 <= k < |ms| ==> r.items[k] == MessageJson(ms[k])
  {
    JArr(seq(|ms|, k requires 0 <= k < |ms| => MessageJson(ms[k])))
  }

  /** `messages.filter((m) => m.role !== "system" || m.content)`: drops the empty system messages. */
  function DropEmptySystem(ms: seq<Message>): (r: seq<Message>)
    ensures forall m :: m in r <==> m in ms && (m.role != "system" || m.content != "")
    ensures |r| <= |ms|
    ensures |ms| == 1 ==> r == (if ms[0].role != "system" || ms[0].content != "" then ms else [])
  {
    if |ms| == 0 then []
    else
      var rest := DropEmptySystem(ms[1..]);
      assert ms == [ms[0]] + ms[1..];
      if ms[0].role != "system" || ms[0].content != "" then [ms[0]] + rest else rest
  }

  /** `messages.filter((m) => m.role !== "system")` */
  function NonSystem(ms: seq<Message>): (r: seq<Message>)
    ensures forall m :: m in r <==> m in ms && m.role != "system"
    ensures |r| <= |ms|
    ensures |ms| == 1 ==> r == (if ms[0].role != "system" then ms else [])
  {
    if |ms| == 0 then []
    else
      var rest := NonSystem(ms[1..]);
      assert ms == [ms[0]] + ms[1..];
      if ms[0].role != "system" then [ms[0]] + rest else rest
  }

  /** The filter keeps the order: filtering a concatenation filters each part. */
  lemma {:induction false} DropEmptySystemAppend(a: seq<Message>, b: seq<Message>)
    ensures DropEmptySystem(a + b) == DropEmptySystem(a) + DropEmptySystem(b)
    decreases |a|
  {
    if |a| == 0 {
      assert a + b == b;
    } else {
      assert (a + b)[0] == a[0] && (a + b)[1..] == a[1..] + b;
      DropEmptySystemAppend(a[1..], b);
    }
  }

  /** The filter keeps the order: filtering a concatenation filters each part. */
  lemma {:induction false} NonSystemAppend(a: seq<Message>, b: seq<Message>)
    ensures NonSystem(a + b) == NonSystem(a) + NonSystem(b)
    decreases |a|
  {
    if |a| == 0 {
      assert a + b == b;
    } else {
      assert (a + b)[0] == a[0] && (a + b)[1..] == a[1..] + b;
      NonSystemAppend(a[1..], b);
    }
  }

  /** The index of the first system message, or `|ms|` when there is none. */
  function FirstSystemIndex(ms: seq<Message>): (i: nat)
    ensures i <= |ms|
    ensures i < |ms| ==> ms[i].role == "system"
    ensures forall k :: 0 <= k < i ==> ms[k].role != "system"
    decreases |ms|
  {
    if |ms| == 0 then 0
    else if ms[0].role == "system" then 0
    else 1 + FirstSystemIndex(ms[1..])
  }

  /** `messages.find((m) => m.role === "system")?.content` */
  function FirstSystemContent(ms: seq<Message>): (r: Option<string>)
    ensures r.None? <==> forall k :: 0 <= k < |ms| ==> ms[k].role != "system"
    ensures r.Some? ==> r.value == ms[FirstSystemIndex(ms)].content
  {
    var i := FirstSystemIndex(ms);
    if i < |ms| then Some(ms[i].content) else None
  }

  /** One Google `contents` entry: `assistant` becomes `model`, every other role `user`. */
  function GoogleContent(m: Message): Json {
    JObj([("role", JStr(if m.role == "assistant" then "model" else "user")),
          ("parts", JArr([JObj([("text", JStr(m.content))])]))])
  }

  function GoogleContents(ms: seq<Message>): (r: seq<Json>)
    ensures |r| == |NonSystem(ms)|
    ensures forall k :: 0 <= k < |r| ==> r[k] == GoogleContent(NonSystem(ms)[k])
  {
    var kept := NonSystem(ms);
    seq(|kept|, k requires 0 <= k < |kept| => GoogleContent(kept[k]))
  }

  /** The Hugging Face prompt: one `role: content` line per message. */
  function Prompt(ms: seq<Message>): string {
    Join(seq(|ms|, k requires 0 <= k < |ms| => ms[k].role + ": " + ms[k].content), "\n")
  }

  const ContentTypeJson: (string, string) := ("Content-Type", "application/json")

  /** The `HTTP-Referer` value on the server, where `window` is undefined. */
  const OpenRouterReferer: string := "https://chatgpt-clone.vercel.app"

  /** The request headers of the OpenAI-compatible variant. */
  function OpenAIHeaders(providerId: string, apiKey: Option<string>): seq<(string, string)> {
    var auth := ("Authorization", "Bearer " + Show(apiKey));
    if providerId == "openrouter" then
      [ContentTypeJson, auth, ("HTTP-Referer", OpenRouterReferer), ("X-Title", "Multi-Provider AI Chat")]
    else
      [ContentTypeJson, auth]
  }

  /** The upstream request of each variant. */
  function Shape(v: Variant, providerId: string, url: string, model: string, ms: seq<Message>, apiKey: Option<string>): HttpRequest {
    match v
    case OpenAICompatible => OpenAIRequest(providerId, url, model, ms, apiKey)
    case Ollama => OllamaRequest(url, model, ms)
    case Google => GoogleRequest(url, model, ms, apiKey)
    case Anthropic => AnthropicRequest(url, model, ms, apiKey)
    case HuggingFace => HuggingFaceRequest(url, model, ms, apiKey)
    case MiniMax => MiniMaxRequest(url, model, ms, apiKey)
  }

  function OpenAIRequest(providerId: string, url: string, model: string, ms: seq<Message>, apiKey: Option<string>): HttpRequest {
    HttpRequest(url + "/chat/completions", OpenAIHeaders(providerId, apiKey),
      JObj([("model", JStr(model)), ("messages", MessagesJson(DropEmptySystem(ms))),
            ("stream", JBool(true)), ("temperature", JNum("0.7")), ("max_tokens", Int(2000))]))
  }

  function OllamaRequest(url: string, model: string, ms: seq<Message>): HttpRequest {
    HttpRequest(url + "/api/chat", [ContentTypeJson],
      JObj([("model", JStr(model)), ("messages", MessagesJson(ms)), ("stream", JBool(true))]))
  }

  function GoogleRequest(url: string, model: string, ms: seq<Message>, apiKey: Option<string>): HttpRequest {
    HttpRequest(url + "/models/" + model + ":streamGenerateContent?key=" + Show(apiKey), [ContentTypeJson],
      JObj([("contents", JArr(GoogleContents(ms)))]))
  }

  function AnthropicRequest(url: string, model: string, ms: seq<Message>, apiKey: Option<string>): HttpRequest {
    var system := FirstSystemContent(ms);
    HttpRequest(url + "/messages",
      [("x-api-key", Show(apiKey)), ("anthropic-version", "2023-06-01"), ContentTypeJson],
      JObj([("model", JStr(model)), ("messages", MessagesJson(NonSystem(ms)))]
           + (if system.Some? then [("system", JStr(system.value))] else [])
           + [("max_tokens", Int(2000)), ("stream", JBool(true))]))
  }

  function HuggingFaceRequest(url: string, model: string, ms: seq<Message>, apiKey: Option<string>): HttpRequest {
    HttpRequest(url + "/" + model, [("Authorization", "Bearer " + Show(apiKey)), ContentTypeJson],
      JObj([("inputs", JStr(Prompt(ms))),
            ("parameters", JObj([("max_new_tokens", Int(2000)), ("temperature", JNum("0.7"))])),
            ("stream", JBool(true))]))
  }

  function MiniMaxRequest(url: string, model: string, ms: seq<Message>, apiKey: Option<string>): HttpRequest {
    HttpRequest(url + "/text/chatcompletion_v2", [("Authorization", "Bearer " + Show(apiKey)), ContentTypeJson],
      JObj([("model", JStr(model)), ("messages", MessagesJson(DropEmptySystem(ms))),
            ("stream", JBool(true)), ("temperature", JNum("0.7"))]))
  }

  /** The message of the `Error` a variant throws for a response that is not 2xx. */
  function StatusError(v: Variant, status: int, errorText: string): string {
    var code := IntToString(status);
    match v
    case OpenAICompatible => "API error: " + code + " - " + errorText
    case Ollama => "Ollama error: " + code
    case Google => "Google error: " + code
    case Anthropic => "Anthropic error: " + code
    case HuggingFace => "HuggingFace error: " + code
    case MiniMax => "MiniMax error: " + code
  }

  // ---------------------------------------------------------------------------
  // Server-sent-event decoding (OpenAI-compatible, MiniMax, Anthropic)
  // ---------------------------------------------------------------------------

  /** The two SSE line formats: chat-completion chunks, and Anthropic's typed events. */
  datatype SseDialect = ChatCompletions | AnthropicEvents

  function DialectOf(v: Variant): SseDialect
    requires v in {OpenAICompatible, MiniMax, Anthropic}
  {
    if v == Anthropic then AnthropicEvents else ChatCompletions
  }

  /** What the decoding loop does with one complete line. */
  datatype LineAction = Yield(value: Json) | Skip | Stop

  /** `parsed.choices?.[0]?.delta?.content || ""`, yielded when truthy. */
  function ChoiceContent(parsed: Json): LineAction {
    // member access on null throws inside the try and is swallowed
    if parsed.JNull? then Skip
    else
      var c := Path(parsed, [Key("choices"), Index(0), Key("delta"), Key("content")]);
      if c.Some? && Truthy(c.value) then Yield(c.value) else Skip
  }

  /** Yields `parsed.delta?.text || ""` for `content_block_delta` events only. */
  function AnthropicDelta(parsed: Json): LineAction {
    if parsed.JNull? then Skip
    else if Get(parsed, "type") == Some(JStr("content_block_delta")) then
      var t := Path(parsed, [Key("delta"), Key("text")]);
      if t.Some? && Truthy(t.value) then Yield(t.value) else Yield(JStr(""))
    else Skip
  }

  /** The inner loop body for one complete line. */
  function SseLine(d: SseDialect, line: string, parse: string -> Option<Json>): LineAction {
    if !StartsWith(line, "data: ") then Skip
    else
      var data := line[6..];
      if d == ChatCompletions && data == "[DONE]" then Stop
      else match parse(data)
        case None => Skip
        case Some(parsed) => if d == ChatCompletions then ChoiceContent(parsed) else AnthropicDelta(parsed)
  }

  /** The deltas of a run of lines, and whether a `[DONE]` line ended it. */
  datatype Scan = Scan(deltas: seq<Json>, stopped: bool)

  function ScanLines(d: SseDialect, lines: seq<string>, parse: string -> Option<Json>): Scan
    decreases |lines|
  {
    if |lines| == 0 then Scan([], false)
    else match SseLine(d, lines[0], parse)
      case Stop => Scan([], true)
      case Skip => ScanLines(d, lines[1..], parse)
      case Yield(v) =>
        var r := ScanLines(d, lines[1..], parse);
        Scan([v] + r.deltas, r.stopped)
  }

  /** Scanning two runs of lines one after the other; a stop in the first ends everything. */
  lemma {:induction false} ScanAppend(d: SseDialect, a: seq<string>, b: seq<string>, parse: string -> Option<Json>)
    ensures ScanLines(d, a + b, parse) ==
              var sa := ScanLines(d, a, parse);
              if sa.stopped then sa
              else var sb := ScanLines(d, b, parse); Scan(sa.deltas + sb.deltas, sb.stopped)
    decreases |a|
  {
    if |a| == 0 {
      assert a + b == b;
    } else {
      assert (a + b)[0] == a[0] && (a + b)[1..] == a[1..] + b;
      ScanAppend(d, a[1..], b, parse);
    }
  }

  /** What an SSE variant yields for a whole body: the scan of its newline-terminated lines. */
  function SseDeltas(d: SseDialect, chunks: seq<string>, parse: string -> Option<Json>): Scan {
    ScanLines(d, Lines(Concat(chunks)), parse)
  }

  /**
   * The read loop of the SSE variants: append each read to `buffer`, split on
   * newlines, keep the last piece for the next read, and decode the others;
   * a `[DONE]` line returns at once.
   */
  method DecodeSse(d: SseDialect, chunks: seq<string>, parse: string -> Option<Json>)
    returns (deltas: seq<Json>, stopped: bool)
    ensures Scan(deltas, stopped) == SseDeltas(d, chunks, parse)
  {
    var buffer := "";
    deltas := [];
    var i := 0;
    while i < |chunks|
      invariant 0 <= i <= |chunks|
      invariant buffer == Rest(Concat(chunks[..i]))
      invariant ScanLines(d, Lines(Concat(chunks[..i])), parse) == Scan(deltas, false)
    {
      buffer := buffer + chunks[i];
      var lines := Split(buffer);
      var complete := lines[..|lines| - 1];
      buffer := lines[|lines| - 1];
      var batch, stop := ScanBatch(d, complete, parse);
      SseStep(d, chunks, i, parse);
      if stop {
        SseStoppedEarly(d, chunks, i + 1, parse);
        return deltas + batch, true;
      }
      deltas := deltas + batch;
      i := i + 1;
    }
    assert chunks[..i] == chunks;
    stopped := false;
  }

  /** The inner loop over the complete lines of one read; a `[DONE]` line returns at once. */
  method ScanBatch(d: SseDialect, lines: seq<string>, parse: string -> Option<Json>)
    returns (deltas: seq<Json>, stopped: bool)
    ensures Scan(deltas, stopped) == ScanLines(d, lines, parse)
  {
    deltas := [];
    var j := 0;
    while j < |lines|
      invariant 0 <= j <= |lines|
      invariant ScanLines(d, lines[..j], parse) == Scan(deltas, false)
    {
      ScanAppend(d, lines[..j], [lines[j]], parse);
      assert lines[..j + 1] == lines[..j] + [lines[j]];
      var action := SseLine(d, lines[j], parse);
      if action.Stop? {
        ScanAppend(d, lines[..j + 1], lines[j + 1..], parse);
        assert lines == lines[..j + 1] + lines[j + 1..];
        return deltas, true;
      } else if action.Yield? {
        deltas := deltas + [action.value];
      }
      j := j + 1;
    }
    assert lines[..j] == lines;
    stopped := false;
  }

  /** One more read: its complete lines are those of the held-back rest followed by the read. */
  lemma SseStep(d: SseDialect, chunks: seq<string>, i: nat, parse: string -> Option<Json>)
    requires i < |chunks|
    ensures var before := Concat(chunks[..i]);
            var complete := Lines(Rest(before) + chunks[i]);
            && Lines(Concat(chunks[..i + 1])) == Lines(before) + complete
            && Rest(Concat(chunks[..i + 1])) == Rest(Rest(before) + chunks[i])
            && ScanLines(d, Lines(Concat(chunks[..i + 1])), parse) ==
                 var sa := ScanLines(d, Lines(before), parse);
                 if sa.stopped then sa
                 else var sb := ScanLines(d, complete, parse); Scan(sa.deltas + sb.deltas, sb.stopped)
  {
    var before := Concat(chunks[..i]);
    ConcatStep(chunks, i);
    LinesAppend(before, chunks[i]);
    ScanAppend(d, Lines(before), Lines(Rest(before) + chunks[i]), parse);
  }

  /** Once the lines of the first `k` reads hit `[DONE]`, the later reads change nothing. */
  lemma SseStoppedEarly(d: SseDialect, chunks: seq<string>, k: nat, parse: string -> Option<Json>)
    requires k <= |chunks|
    requires ScanLines(d, Lines(Concat(chunks[..k])), parse).stopped
    ensures SseDeltas(d, chunks, parse) == ScanLines(d, Lines(Concat(chunks[..k])), parse)
  {
    LinesOfPrefix(chunks, k);
    ScanAppend(d, Lines(Concat(chunks[..k])), Lines(Rest(Concat(chunks[..k])) + Concat(chunks[k..])), parse);
  }

  // ---------------------------------------------------------------------------
  // Newline-delimited JSON decoding, one read at a time (Ollama, Google)
  // ---------------------------------------------------------------------------

  datatype JsonLinesDialect = OllamaChat | GoogleGenerate

  /** The content path each dialect reads. */
  function ContentPath(d: JsonLinesDialect): seq<Step> {
    if d == OllamaChat then [Key("message"), Key("content")]
    else [Key("candidates"), Index(0), Key("content"), Key("parts"), Index(0), Key("text")]
  }

  /** The delta of one line: the content when the line parses and the content is truthy. */
  function JsonLineDelta(d: JsonLinesDialect, line: string, parse: string -> Option<Json>): Option<Json> {
    match parse(line)
    case None => None
    case Some(parsed) =>
      if parsed.JNull? then None
      else
        var v := Path(parsed, ContentPath(d));
        if v.Some? && Truthy(v.value) then v else None
  }

  /** `.filter(Boolean)`: drops the empty pieces. */
  function NonEmpty(pieces: seq<string>): (r: seq<string>)
    ensures forall k :: 0 <= k < |r| ==> r[k] != ""
    ensures forall x :: x in r <==> x in pieces && x != ""
    ensures |pieces| == 1 ==> r == (if pieces[0] != "" then pieces else [])
    decreases |pieces|
  {
    if |pieces| == 0 then []
    else
      var r := NonEmpty(pieces[..|pieces| - 1]);
      if pieces[|pieces| - 1] != "" then r + [pieces[|pieces| - 1]] else r
  }

  /** The filter keeps the order: filtering a concatenation filters each part. */
  lemma {:induction false} NonEmptyAppend(a: seq<string>, b: seq<string>)
    ensures NonEmpty(a + b) == NonEmpty(a) + NonEmpty(b)
    decreases |b|
  {
    if |b| == 0 {
      assert a + b == a;
    } else {
      var n := |b| - 1;
      var ab := a + b;
      assert ab[..|ab| - 1] == a + b[..n] && ab[|ab| - 1] == b[n];
      NonEmptyAppend(a, b[..n]);
    }
  }

  function JsonLinesDeltas(d: JsonLinesDialect, lines: seq<string>, parse: string -> Option<Json>): seq<Json>
    decreases |lines|
  {
    if |lines| == 0 then []
    else
      var r := JsonLinesDeltas(d, lines[..|lines| - 1], parse);
      match JsonLineDelta(d, lines[|lines| - 1], parse)
      case None => r
      case Some(v) => r + [v]
  }

  /** What one read yields: its own non-empty lines, with nothing carried over. */
  function ChunkDeltas(d: JsonLinesDialect, chunk: string, parse: string -> Option<Json>): seq<Json> {
    JsonLinesDeltas(d, NonEmpty(Split(chunk)), parse)
  }

  /** Each read decoded on its own by `perRead`, the results joined in order. */
  function ConcatMap<T>(perRead: string -> seq<T>, chunks: seq<string>): seq<T>
    decreases |chunks|
  {
    if |chunks| == 0 then []
    else ConcatMap(perRead, chunks[..|chunks| - 1]) + perRead(chunks[|chunks| - 1])
  }

  /** Decoding reads one by one distributes over concatenation of the reads. */
  lemma {:induction false} ConcatMapAppend<T>(perRead: string -> seq<T>, a: seq<string>, b: seq<string>)
    ensures ConcatMap(perRead, a + b) == ConcatMap(perRead, a) + ConcatMap(perRead, b)
    decreases |b|
  {
    if |b| == 0 {
      assert a + b == a;
    } else {
      var n := |b| - 1;
      var ab := a + b;
      assert ab[..|ab| - 1] == a + b[..n];
      assert ab[|ab| - 1] == b[n];
      ConcatMapAppend(perRead, a, b[..n]);
    }
  }

  function ChunkReader(d: JsonLinesDialect, parse: string -> Option<Json>): string -> seq<Json> {
    chunk => ChunkDeltas(d, chunk, parse)
  }

  /** What the Ollama and Google read loops yield for the whole body. */
  function JsonChunksDeltas(d: JsonLinesDialect, chunks: seq<string>, parse: string -> Option<Json>): seq<Json> {
    ConcatMap(ChunkReader(d, parse), chunks)
  }

  /** The inner loop of the Ollama and Google variants: one read's non-empty lines, decoded in order. */
  method DecodeRead(d: JsonLinesDialect, chunk: string, parse: string -> Option<Json>) returns (deltas: seq<Json>)
    ensures deltas == ChunkDeltas(d, chunk, parse)
  {
    var lines := NonEmpty(Split(chunk));
    deltas := [];
    var j := 0;
    while j < |lines|
      invariant 0 <= j <= |lines|
      invariant deltas == JsonLinesDeltas(d, lines[..j], parse)
    {
      assert lines[..j + 1][..j] == lines[..j];
      var v := JsonLineDelta(d, lines[j], parse);
      if v.Some? {
        deltas := deltas + [v.value];
      }
      j := j + 1;
    }
    assert lines[..j] == lines;
  }

  /** The read loop of the Ollama and Google variants. */
  method DecodeJsonLines(d: JsonLinesDialect, chunks: seq<string>, parse: string -> Option<Json>)
    returns (deltas: seq<Json>)
    ensures deltas == JsonChunksDeltas(d, chunks, parse)
  {
    deltas := [];
    var i := 0;
    while i < |chunks|
      invariant 0 <= i <= |chunks|
      invariant deltas == JsonChunksDeltas(d, chunks[..i], parse)
    {
      assert chunks[..i + 1][..i] == chunks[..i];
      var read := DecodeRead(d, chunks[i], parse);
      assert ChunkReader(d, parse)(chunks[i]) == read;
      deltas := deltas + read;
      i := i + 1;
    }
    assert chunks[..i] == chunks;
  }

  // ---------------------------------------------------------------------------
  // Whole-read decoding (Hugging Face)
  // ---------------------------------------------------------------------------

  /**
   * The delta of one read: `generated_text` if truthy, else `token.text` if
   * truthy; a read that does not parse (or parses to `null`, whose member
   * access throws) is passed through as raw text.
   */
  function WholeChunkDelta(chunk: string, parse: string -> Option<Json>): Option<Json> {
    match parse(chunk)
    case None => Some(JStr(chunk))
    case Some(parsed) =>
      if parsed.JNull? then Some(JStr(chunk))
      else
        var g := Get(parsed, "generated_text");
        if g.Some? && Truthy(g.value) then g
        else
          var t := Path(parsed, [Key("token"), Key("text")]);
          if t.Some? && Truthy(t.value) then t else None
  }

  function WholeChunksDeltas(chunks: seq<string>, parse: string -> Option<Json>): seq<Json>
    decreases |chunks|
  {
    if |chunks| == 0 then []
    else
      var r := WholeChunksDeltas(chunks[..|chunks| - 1], parse);
      match WholeChunkDelta(chunks[|chunks| - 1], parse)
      case None => r
      case Some(v) => r + [v]
  }

  /** The read loop of the Hugging Face variant. */
  method DecodeWhole(chunks: seq<string>, parse: string -> Option<Json>) returns (deltas: seq<Json>)
    ensures deltas == WholeChunksDeltas(chunks, parse)
  {
    deltas := [];
    var i := 0;
    while i < |chunks|
      invariant 0 <= i <= |chunks|
      invariant deltas == WholeChunksDeltas(chunks[..i], parse)
    {
      assert chunks[..i + 1][..i] == chunks[..i];
      var v := WholeChunkDelta(chunks[i], parse);
      if v.Some? {
        deltas := deltas + [v.value];
      }
      i := i + 1;
    }
    assert chunks[..i] == chunks;
  }

  // ---------------------------------------------------------------------------
  // streamChat
  // ---------------------------------------------------------------------------

  /** The deltas a variant yields for a 2xx body, and whether it stopped at `[DONE]`. */
  function BodyDeltas(v: Variant, chunks: seq<string>, parse: string -> Option<Json>): Scan {
    match v
    case Ollama => Scan(JsonChunksDeltas(OllamaChat, chunks, parse), false)
    case Google => Scan(JsonChunksDeltas(GoogleGenerate, chunks, parse), false)
    case HuggingFace => Scan(WholeChunksDeltas(chunks, parse), false)
    case _ => SseDeltas(DialectOf(v), chunks, parse)
  }

  /** The message V8 gives the `TypeError` of destructuring an undefined `this.config`. */
  const UndefinedConfigMessage: string := "Cannot destructure property 'apiKey' of 'this.config' as it is undefined."

  /** Everything one `streamChat` run does: the request sent, the deltas yielded, the value thrown. */
  datatype ClientRun = ClientRun(sent: Option<HttpRequest>, deltas: seq<Json>, failure: Option<Thrown>)

  /** The specification of `streamChat`. */
  function StreamChatRun(providerId: string, registryBaseUrl: string, config: Option<ProviderConfig>,
                         model: string, ms: seq<Message>, upstream: Upstream, parse: string -> Option<Json>): (run: ClientRun)
    ensures run.sent.Some? <==> config.Some?
    ensures run.sent.None? ==> run.deltas == []
  {
    match config
    case None => ClientRun(None, [], Some(ErrorValue(UndefinedConfigMessage)))
    case Some(cfg) =>
      var v := VariantOf(providerId);
      var request := Shape(v, providerId, ResolveBaseUrl(cfg, registryBaseUrl), model, ms, cfg.apiKey);
      match upstream
      case Unreachable(reason) => ClientRun(Some(request), [], Some(reason))
      case Reply(status, errorText, hasBody, chunks, readError) =>
        if !(200 <= status <= 299) then ClientRun(Some(request), [], Some(ErrorValue(StatusError(v, status, errorText))))
        else if !hasBody then ClientRun(Some(request), [], Some(ErrorValue("No response body")))
        else
          var scan := BodyDeltas(v, chunks, parse);
          ClientRun(Some(request), scan.deltas, if scan.stopped then None else readError)
  }

  /** `ProviderClient.streamChat`: dispatches to the variant and runs its read loop. */
  method StreamChat(providerId: string, registryBaseUrl: string, config: Option<ProviderConfig>,
                    model: string, ms: seq<Message>, upstream: Upstream, parse: string -> Option<Json>)
    returns (sent: Option<HttpRequest>, deltas: seq<Json>, failure: Option<Thrown>)
    ensures ClientRun(sent, deltas, failure) == StreamChatRun(providerId, registryBaseUrl, config, model, ms, upstream, parse)
  {
    if config.None? {
      return None, [], Some(ErrorValue(UndefinedConfigMessage));
    }
    var cfg := config.value;
    var url := ResolveBaseUrl(cfg, registryBaseUrl);
    var v := VariantOf(providerId);
    var request := Shape(v, providerId, url, model, ms, cfg.apiKey);
    sent := Some(request);
    deltas := [];
    if upstream.Unreachable? {
      return sent, [], Some(upstream.reason);
    }
    if !(200 <= upstream.status <= 299) {
      return sent, [], Some(ErrorValue(StatusError(v, upstream.status, upstream.errorText)));
    }
    if !upstream.hasBody {
      return sent, [], Some(ErrorValue("No response body"));
    }
    var stopped := false;
    match v {
      case Ollama =>
        deltas := DecodeJsonLines(OllamaChat, upstream.chunks, parse);
      case Google =>
        deltas := DecodeJsonLines(GoogleGenerate, upstream.chunks, parse);
      case HuggingFace =>
        deltas := DecodeWhole(upstream.chunks, parse);
      case _ =>
        deltas, stopped := DecodeSse(DialectOf(v), upstream.chunks, parse);
    }
    failure := if stopped then None else upstream.readError;
  }

  // ---------------------------------------------------------------------------
  // Properties of the decoders
  // ---------------------------------------------------------------------------

  /** How the reads are cut does not matter to the SSE variants: only their concatenation does. */
  lemma SseChunkSplitInvariant(d: SseDialect, c1: seq<string>, c2: seq<string>, parse: string -> Option<Json>)
    requires Concat(c1) == Concat(c2)
    ensures SseDeltas(d, c1, parse) == SseDeltas(d, c2, parse)
    ensures SseDeltas(d, c1, parse) == SseDeltas(d, [Concat(c2)], parse)
  {
    assert [Concat(c2)][..0] == [];
    assert Concat([Concat(c2)]) == "" + Concat(c2) == Concat(c2);
  }

  /**
   * A `data: [DONE]` line ends the chat-completion decoders: the deltas are
   * those of the lines before it, whatever follows it in the body.
   */
  lemma DoneStopsDecoding(pre: string, post: string, parse: string -> Option<Json>)
    requires Rest(pre) == ""
    ensures var sa := ScanLines(ChatCompletions, Lines(pre), parse);
            SseDeltas(ChatCompletions, [pre + "data: [DONE]\n" + post], parse) == Scan(sa.deltas, true)
  {
    var d := ChatCompletions;
    var x := "data: [DONE]\n" + post;
    assert [pre + x][..0] == [];
    assert Concat([pre + x]) == pre + x;
    assert pre + "data: [DONE]\n" + post == pre + x;
    LinesAppend(pre, x);
    assert Rest(pre) + x == "data: [DONE]" + "\n" + post;
    LinesOfTerminatedLine("data: [DONE]", post);
    ScanAppend(d, Lines(pre), ["data: [DONE]"] + Lines(post), parse);
    assert SseLine(d, "data: [DONE]", parse) == Stop by {
      assert StartsWith("data: [DONE]", "data: ");
      assert "data: [DONE]"[6..] == "[DONE]";
    }
    assert (["data: [DONE]"] + Lines(post))[0] == "data: [DONE]";
    assert ScanLines(d, ["data: [DONE]"] + Lines(post), parse) == Scan([], true);
  }

  /** Without `[DONE]` lines a scan never stops; Anthropic's decoder has no such line at all. */
  lemma {:induction false} ScanNeverStopped(d: SseDialect, lines: seq<string>, parse: string -> Option<Json>)
    requires d == AnthropicEvents || forall k :: 0 <= k < |lines| ==> SseLine(d, lines[k], parse) != Stop
    ensures !ScanLines(d, lines, parse).stopped
    decreases |lines|
  {
    if |lines| > 0 {
      assert SseLine(d, lines[0], parse) != Stop;
      assert forall k :: 0 <= k < |lines[1..]| ==> lines[1..][k] == lines[k + 1];
      ScanNeverStopped(d, lines[1..], parse);
    }
  }

  /** Anthropic's decoder always reads the whole body. */
  lemma AnthropicNeverStops(chunks: seq<string>, parse: string -> Option<Json>)
    ensures !SseDeltas(AnthropicEvents, chunks, parse).stopped
  {
    ScanNeverStopped(AnthropicEvents, Lines(Concat(chunks)), parse);
  }

  /** A line without the `data: ` prefix, or whose payload does not parse, is skipped and the loop goes on. */
  lemma {:induction false} UnusableLineSkipped(d: SseDialect, a: seq<string>, line: string, b: seq<string>, parse: string -> Option<Json>)
    requires !StartsWith(line, "data: ")
             || (parse(line[6..]) == None && !(d == ChatCompletions && line[6..] == "[DONE]"))
    ensures ScanLines(d, a + [line] + b, parse) == ScanLines(d, a + b, parse)
  {
    ScanAppend(d, a, [line] + b, parse);
    assert a + [line] + b == a + ([line] + b);
    assert ([line] + b)[0] == line && ([line] + b)[1..] == b;
    ScanAppend(d, a, b, parse);
  }

  /** An unterminated line at the end of the body is held back and never decoded. */
  lemma UnterminatedLineLost(d: SseDialect, chunks: seq<string>, tail: string, parse: string -> Option<Json>)
    requires Rest(Concat(chunks)) == ""
    requires '\n' !in tail
    ensures SseDeltas(d, chunks + [tail], parse) == SseDeltas(d, chunks, parse)
  {
    var all := chunks + [tail];
    assert all[..|chunks|] == chunks;
    ConcatStep(all, |chunks|);
    assert all[..|chunks| + 1] == all;
    UnterminatedHeldBack(Concat(chunks), tail);
  }

  /** The chat-completion decoders yield only truthy contents (an empty `delta.content` is not yielded). */
  lemma {:induction false} ChatDeltasTruthy(lines: seq<string>, parse: string -> Option<Json>)
    ensures forall k :: 0 <= k < |ScanLines(ChatCompletions, lines, parse).deltas| ==>
              Truthy(ScanLines(ChatCompletions, lines, parse).deltas[k])
    decreases |lines|
  {
    if |lines| > 0 {
      ChatDeltasTruthy(lines[1..], parse);
    }
  }

  /**
   * Anthropic's decoder yields exactly for `content_block_delta` events: the
   * delta's text when it is truthy, `""` when it is absent or falsy; every
   * other event is skipped.
   */
  lemma AnthropicDeltaShape(parsed: Json)
    ensures AnthropicDelta(parsed).Yield? <==> Get(parsed, "type") == Some(JStr("content_block_delta"))
    ensures !AnthropicDelta(parsed).Stop?
    ensures var t := Path(parsed, [Key("delta"), Key("text")]);
      AnthropicDelta(parsed).Yield? && t.Some? && Truthy(t.value) ==> AnthropicDelta(parsed).value == t.value
    ensures var t := Path(parsed, [Key("delta"), Key("text")]);
      AnthropicDelta(parsed).Yield? && !(t.Some? && Truthy(t.value)) ==> AnthropicDelta(parsed).value == JStr("")
  {
  }

  /** The Ollama and Google decoders carry nothing from one read to the next. */
  lemma JsonChunksAppend(d: JsonLinesDialect, a: seq<string>, b: seq<string>, parse: string -> Option<Json>)
    ensures JsonChunksDeltas(d, a + b, parse) == JsonChunksDeltas(d, a, parse) + JsonChunksDeltas(d, b, parse)
  {
    ConcatMapAppend(ChunkReader(d, parse), a, b);
  }

  /** A non-empty line without newlines is the only line its read splits into. */
  lemma SingleLineChunk(d: JsonLinesDialect, line: string, parse: string -> Option<Json>)
    requires line != "" && '\n' !in line
    ensures ChunkDeltas(d, line, parse) ==
              match JsonLineDelta(d, line, parse) case None => [] case Some(v) => [v]
  {
    SplitNoNewline(line);
    assert [line][..0] == [];
    assert NonEmpty([line]) == NonEmpty([]) + [line] == [line];
    assert JsonLinesDeltas(d, [line], parse) ==
             match JsonLineDelta(d, line, parse) case None => [] case Some(v) => [] + [v];
  }

  /**
   * A JSON line that arrives cut across two reads is lost by the Ollama and
   * Google decoders, although the same line in one read is yielded.
   */
  lemma SplitJsonLineLost(d: JsonLinesDialect, x: string, y: string, v: Json, parse: string -> Option<Json>)
    requires x != "" && y != "" && '\n' !in x && '\n' !in y
    requires parse(x) == None && parse(y) == None
    requires JsonLineDelta(d, x + y, parse) == Some(v)
    ensures JsonChunksDeltas(d, [x + y], parse) == [v]
    ensures JsonChunksDeltas(d, [x, y], parse) == []
  {
    NoNewlineConcat(x, y);
    OneLineRead(d, x + y, parse);
    OneLineRead(d, x, parse);
    OneLineRead(d, y, parse);
    JsonChunksAppend(d, [x], [y], parse);
    assert [x] + [y] == [x, y];
  }

  /** A body of one read holding one line yields that line's delta, if any. */
  lemma OneLineRead(d: JsonLinesDialect, line: string, parse: string -> Option<Json>)
    requires line != "" && '\n' !in line
    ensures JsonChunksDeltas(d, [line], parse) ==
              match JsonLineDelta(d, line, parse) case None => [] case Some(v) => [v]
  {
    OneReadChunks(d, line, parse);
    SingleLineChunk(d, line, parse);
  }

  /** A body of one read decodes as that read alone. */
  lemma OneReadChunks(d: JsonLinesDialect, chunk: string, parse: string -> Option<Json>)
    ensures JsonChunksDeltas(d, [chunk], parse) == ChunkDeltas(d, chunk, parse)
  {
    assert [chunk][..0] == [];
    assert ChunkReader(d, parse)(chunk) == ChunkDeltas(d, chunk, parse);
    assert ConcatMap(ChunkReader(d, parse), [chunk]) == [] + ChunkReader(d, parse)(chunk);
  }

  /** Two texts without a line feed join into one without a line feed. */
  lemma NoNewlineConcat(x: string, y: string)
    requires '\n' !in x && '\n' !in y
    ensures '\n' !in x + y
  {
    forall k | 0 <= k < |x + y| ensures (x + y)[k] != '\n' {
      if k < |x| { assert (x + y)[k] == x[k]; } else { assert (x + y)[k] == y[k - |x|]; }
    }
  }

  /** When no read parses, the Hugging Face decoder passes every read through as raw text. */
  lemma {:induction false} UnparsableReadsPassThrough(chunks: seq<string>, parse: string -> Option<Json>)
    requires forall k :: 0 <= k < |chunks| ==> parse(chunks[k]) == None
    ensures |WholeChunksDeltas(chunks, parse)| == |chunks|
    ensures forall k :: 0 <= k < |chunks| ==> WholeChunksDeltas(chunks, parse)[k] == JStr(chunks[k])
    decreases |chunks|
  {
    if |chunks| > 0 {
      var n := |chunks| - 1;
      assert forall k :: 0 <= k < n ==> chunks[..n][k] == chunks[k];
      UnparsableReadsPassThrough(chunks[..n], parse);
    }
  }

  /** `generated_text` wins over `token.text` in a Hugging Face read. */
  lemma GeneratedTextFirst(chunk: string, parsed: Json, g: Json, parse: string -> Option<Json>)
    requires parse(chunk) == Some(parsed)
    requires Get(parsed, "generated_text") == Some(g) && Truthy(g)
    ensures WholeChunkDelta(chunk, parse) == Some(g)
  {
  }

  // ---------------------------------------------------------------------------
  // Properties of the request shapes and of streamChat
  // ---------------------------------------------------------------------------

  /** What the OpenAI-compatible variant sends. */
  lemma OpenAIRequestShape(providerId: string, url: string, model: string, ms: seq<Message>, apiKey: Option<string>)
    ensures var r := Shape(OpenAICompatible, providerId, url, model, ms, apiKey);
            && r.url == url + "/chat/completions"
            && ("Authorization", "Bearer " + Show(apiKey)) in r.headers
            && (("X-Title", "Multi-Provider AI Chat") in r.headers <==> providerId == "openrouter")
            && (("HTTP-Referer", OpenRouterReferer) in r.headers <==> providerId == "openrouter")
            && Get(r.body, "messages") == Some(MessagesJson(DropEmptySystem(ms)))
            && Get(r.body, "stream") == Some(JBool(true))
            && Get(r.body, "temperature") == Some(JNum("0.7"))
            && Get(r.body, "max_tokens") == Some(Int(2000))
  {
    var r := Shape(OpenAICompatible, providerId, url, model, ms, apiKey);
    var auth := ("Authorization", "Bearer " + Show(apiKey));
    if providerId == "openrouter" {
      assert r.headers[1] == auth;
    } else {
      assert r.headers == [ContentTypeJson, auth];
    }
    var members := r.body.members;
    LookupFound(members, 1, "messages");
    LookupFound(members, 2, "stream");
    LookupFound(members, 3, "temperature");
    LookupFound(members, 4, "max_tokens");
  }

  /** What the Google variant sends: one `user`/`model` entry per non-system message, in order. */
  lemma GoogleRequestShape(url: string, model: string, ms: seq<Message>, apiKey: Option<string>)
    ensures var r := Shape(Google, "google", url, model, ms, apiKey);
            && r.url == url + "/models/" + model + ":streamGenerateContent?key=" + Show(apiKey)
            && Get(r.body, "contents") == Some(JArr(GoogleContents(ms)))
            && forall k :: 0 <= k < |NonSystem(ms)| ==>
                 Get(GoogleContents(ms)[k], "role") ==
                   Some(JStr(if NonSystem(ms)[k].role == "assistant" then "model" else "user"))
  {
    var r := Shape(Google, "google", url, model, ms, apiKey);
    LookupFound(r.body.members, 0, "contents");
    forall k | 0 <= k < |NonSystem(ms)|
      ensures Get(GoogleContents(ms)[k], "role") ==
                Some(JStr(if NonSystem(ms)[k].role == "assistant" then "model" else "user"))
    {
      LookupFound(GoogleContents(ms)[k].members, 0, "role");
    }
  }

  /** What the Anthropic variant sends: `system` holds the first system message, and is absent without one. */
  lemma AnthropicRequestShape(url: string, model: string, ms: seq<Message>, apiKey: Option<string>)
    ensures var r := Shape(Anthropic, "anthropic", url, model, ms, apiKey);
            && r.url == url + "/messages"
            && r.headers == [("x-api-key", Show(apiKey)), ("anthropic-version", "2023-06-01"), ContentTypeJson]
            && Get(r.body, "messages") == Some(MessagesJson(NonSystem(ms)))
            && (FirstSystemContent(ms).None? ==> Get(r.body, "system").None?)
            && (FirstSystemContent(ms).Some? ==> Get(r.body, "system") == Some(JStr(FirstSystemContent(ms).value)))
            && Get(r.body, "max_tokens") == Some(Int(2000))
  {
    AnthropicBodyLookup(model, MessagesJson(NonSystem(ms)), FirstSystemContent(ms));
  }

  /** The keys of the Anthropic body, whatever the messages and the system text are. */
  lemma AnthropicBodyLookup(model: string, messages: Json, system: Option<string>)
    ensures var members := [("model", JStr(model)), ("messages", messages)]
                           + (if system.Some? then [("system", JStr(system.value))] else [])
                           + [("max_tokens", Int(2000)), ("stream", JBool(true))];
            && Lookup(members, "messages") == Some(messages)
            && (system.None? ==> Lookup(members, "system").None?)
            && (system.Some? ==> Lookup(members, "system") == Some(JStr(system.value)))
            && Lookup(members, "max_tokens") == Some(Int(2000))
  {
    var head := [("model", JStr(model)), ("messages", messages)];
    var tail := [("max_tokens", Int(2000)), ("stream", JBool(true))];
    if system.Some? {
      var members := head + [("system", JStr(system.value))] + tail;
      LookupFound(members, 1, "messages");
      LookupFound(members, 2, "system");
      LookupFound(members, 3, "max_tokens");
    } else {
      var members := head + [] + tail;
      LookupFound(members, 1, "messages");
      LookupMissing(members, "system");
      LookupFound(members, 2, "max_tokens");
    }
  }

  /** What the Ollama variant sends: every message unfiltered, no authorization header. */
  lemma OllamaRequestShape(url: string, model: string, ms: seq<Message>, apiKey: Option<string>)
    ensures var r := Shape(Ollama, "ollama", url, model, ms, apiKey);
            && r.url == url + "/api/chat"
            && r.headers == [ContentTypeJson]
            && Get(r.body, "model") == Some(JStr(model))
            && Get(r.body, "messages") == Some(MessagesJson(ms))
            && Get(r.body, "stream") == Some(JBool(true))
            && Get(r.body, "temperature").None?
  {
    var members := Shape(Ollama, "ollama", url, model, ms, apiKey).body.members;
    LookupFound(members, 0, "model");
    LookupFound(members, 1, "messages");
    LookupFound(members, 2, "stream");
    LookupMissing(members, "temperature");
  }

  /**
   * What the Hugging Face variant sends for any conversation: Bearer
   * authorization, the model in the path, the joined prompt as `inputs`, and
   * streaming switched on.
   */
  lemma HuggingFaceRequestFields(url: string, model: string, ms: seq<Message>, apiKey: Option<string>)
    ensures var r := Shape(HuggingFace, "huggingface", url, model, ms, apiKey);
            && r.url == url + "/" + model
            && ("Authorization", "Bearer " + Show(apiKey)) in r.headers
            && Get(r.body, "inputs") == Some(JStr(Prompt(ms)))
            && Get(r.body, "stream") == Some(JBool(true))
  {
    var r := Shape(HuggingFace, "huggingface", url, model, ms, apiKey);
    assert r.headers[0] == ("Authorization", "Bearer " + Show(apiKey));
    LookupFound(r.body.members, 0, "inputs");
    LookupFound(r.body.members, 2, "stream");
  }

  /**
   * The Hugging Face prompt has one line per message, `role: content`, in
   * order, when no role or content holds a line break.
   */
  lemma HuggingFaceRequestShape(url: string, model: string, ms: seq<Message>, apiKey: Option<string>)
    requires |ms| >= 1
    requires forall k :: 0 <= k < |ms| ==> '\n' !in ms[k].role && '\n' !in ms[k].content
    ensures var r := Shape(HuggingFace, "huggingface", url, model, ms, apiKey);
            && r.url == url + "/" + model
            && ("Authorization", "Bearer " + Show(apiKey)) in r.headers
            && Get(r.body, "inputs") == Some(JStr(Prompt(ms)))
            && Get(r.body, "stream") == Some(JBool(true))
            && var lines := Split(Prompt(ms));
               |lines| == |ms| && forall k :: 0 <= k < |ms| ==> lines[k] == ms[k].role + ": " + ms[k].content
  {
    HuggingFaceRequestFields(url, model, ms, apiKey);
    var parts := seq(|ms|, k requires 0 <= k < |ms| => ms[k].role + ": " + ms[k].content);
    forall k | 0 <= k < |parts|
      ensures '\n' !in parts[k]
    {
      assert parts[k] == ms[k].role + ": " + ms[k].content;
    }
    SplitJoin(parts);
  }

  /** What the MiniMax variant sends: the OpenAI-compatible body without `max_tokens`, on its own path. */
  lemma MiniMaxRequestShape(url: string, model: string, ms: seq<Message>, apiKey: Option<string>)
    ensures var r := Shape(MiniMax, "minimax", url, model, ms, apiKey);
            && r.url == url + "/text/chatcompletion_v2"
            && ("Authorization", "Bearer " + Show(apiKey)) in r.headers
            && Get(r.body, "messages") == Some(MessagesJson(DropEmptySystem(ms)))
            && Get(r.body, "stream") == Some(JBool(true))
            && Get(r.body, "temperature") == Some(JNum("0.7"))
            && Get(r.body, "max_tokens").None?
  {
    var r := Shape(MiniMax, "minimax", url, model, ms, apiKey);
    assert r.headers[0] == ("Authorization", "Bearer " + Show(apiKey));
    var members := r.body.members;
    LookupFound(members, 1, "messages");
    LookupFound(members, 2, "stream");
    LookupFound(members, 3, "temperature");
    LookupMissing(members, "max_tokens");
  }

  /** A response that is not 2xx yields nothing and fails with the variant's status message. */
  lemma NotOkFails(providerId: string, registryBaseUrl: string, cfg: ProviderConfig, model: string, ms: seq<Message>,
                   status: int, errorText: string, hasBody: bool, chunks: seq<string>, readError: Option<Thrown>,
                   parse: string -> Option<Json>)
    requires !(200 <= status <= 299)
    ensures var run := StreamChatRun(providerId, registryBaseUrl, Some(cfg), model, ms,
                                     Reply(status, errorText, hasBody, chunks, readError), parse);
            run.deltas == [] && run.failure == Some(ErrorValue(StatusError(VariantOf(providerId), status, errorText)))
  {
  }
}
