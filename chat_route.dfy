/**
 * The newer `POST /api/chat` endpoint: checks the request, picks the provider
 * named in the first system message (`mock` by default), and either returns
 * the provider's reply as JSON or relays its stream through a stream
 * processor, re-emitting each parsed chunk as a `data: ` frame.
 *
 * What a provider's `chat` resolves to and what its `stream` yields are
 * parameters; the mock provider's stream is related to them by lemmas below.
 */
module ChatRoute {
  import opened Wrappers
  import opened Text
  import opened Json
  import opened JsValues
  import opened ProviderTypes
  import opened StreamingHelper
  import ProviderRegistry
  import MockProvider

  // ---------------------------------------------------------------------------
  // The provider name: /provider[:\s]+(\w+)/i
  // ---------------------------------------------------------------------------

  /** `c` matches `[:\s]`. */
  predicate IsSeparator(c: char) {
    c == ':' || IsWhitespace(c)
  }

  /** Every character of `t` is a separator. */
  predicate Separators(t: string) {
    forall k :: 0 <= k < |t| ==> IsSeparator(t[k])
  }

  /** Every character of `t` is a word character. */
  predicate WordChars(t: string) {
    forall k :: 0 <= k < |t| ==> IsWordChar(t[k])
  }

  /** The length of the run of separators starting at `i`. */
  function SeparatorRun(s: string, i: nat): (n: nat)
    requires i <= |s|
    ensures i + n <= |s|
    ensures forall k :: i <= k < i + n ==> IsSeparator(s[k])
    ensures i + n == |s| || !IsSeparator(s[i + n])
    decreases |s| - i
  {
    if i < |s| && IsSeparator(s[i]) then 1 + SeparatorRun(s, i + 1) else 0
  }

  /** `provider`, in any ASCII case, starts at `i`. */
  predicate KeywordAt(s: string, i: nat) {
    i + 8 <= |s| && ToLowerAscii(s[i..i + 8]) == "provider"
  }

  /**
   * The capture of a match starting at `i`. The separator and word classes are
   * disjoint, so the greedy separator run is the only way to continue, and the
   * greedy capture is the whole word run after it.
   */
  function MatchAt(s: string, i: nat): Option<string>
    requires i <= |s|
  {
    if !KeywordAt(s, i) then None
    else
      var sep := SeparatorRun(s, i + 8);
      var word := WordRun(s, i + 8 + sep);
      if sep == 0 || word == 0 then None else Some(s[i + 8 + sep..i + 8 + sep + word])
  }

  /** The capture of the leftmost match at or after `from`. */
  function FindTag(s: string, from: nat): (r: Option<string>)
    requires from <= |s|
    ensures r.Some? ==> |r.value| > 0 && forall k :: 0 <= k < |r.value| ==> IsWordChar(r.value[k])
    decreases |s| - from
  {
    match MatchAt(s, from)
    case Some(tag) => Some(tag)
    case None => if from == |s| then None else FindTag(s, from + 1)
  }

  /** The search returns the match that starts leftmost, and finds one whenever any exists. */
  lemma {:induction false} FindTagLeftmost(s: string, from: nat)
    requires from <= |s|
    ensures FindTag(s, from).Some? ==>
              exists i :: from <= i <= |s| && MatchAt(s, i) == FindTag(s, from)
                          && forall j :: from <= j < i ==> MatchAt(s, j).None?
    ensures FindTag(s, from).None? ==> forall i :: from <= i <= |s| ==> MatchAt(s, i).None?
    decreases |s| - from
  {
    var m := MatchAt(s, from);
    if m.Some? {
      assert FindTag(s, from) == m;
    } else if from < |s| {
      FindTagLeftmost(s, from + 1);
      var r := FindTag(s, from + 1);
      assert FindTag(s, from) == r;
      if r.Some? {
        var i :| from + 1 <= i <= |s| && MatchAt(s, i) == r && forall j :: from + 1 <= j < i ==> MatchAt(s, j).None?;
        assert forall j :: from <= j < i ==> MatchAt(s, j).None?;
      }
    }
  }

  /** A separator run of known length. */
  lemma {:induction false} SeparatorRunOf(s: string, i: nat, n: nat)
    requires i + n <= |s|
    requires forall k :: i <= k < i + n ==> IsSeparator(s[k])
    requires i + n == |s| || !IsSeparator(s[i + n])
    ensures SeparatorRun(s, i) == n
    decreases n
  {
    if n > 0 {
      SeparatorRunOf(s, i + 1, n - 1);
    }
  }

  /**
   * `provider`, any run of `:` and white space (line breaks included), then a
   * word: the word names the provider, whatever follows its last word character.
   */
  lemma NamedProvider(sep: string, name: string, post: string)
    requires |sep| > 0 && forall k :: 0 <= k < |sep| ==> IsSeparator(sep[k])
    requires |name| > 0 && forall k :: 0 <= k < |name| ==> IsWordChar(name[k])
    requires post == [] || !IsWordChar(post[0])
    ensures FindTag("provider" + sep + name + post, 0) == Some(name)
  {
    ProviderSlices(sep, name, post);
    NamedAt("provider" + sep + name + post, sep, name);
  }

  /** Where the parts of `provider`, separator, word and rest sit in their concatenation. */
  lemma ProviderSlices(sep: string, name: string, post: string)
    ensures var s := "provider" + sep + name + post; var w := 8 + |sep|;
      |s| == w + |name| + |post| && s[0..8] == "provider" && s[8..w] == sep
      && s[w..w + |name|] == name && (post != [] ==> s[w + |name|] == post[0])
  {
  }

  /** The slice-level form of `NamedProvider`: a keyword, a separator run and a word run at the start of `s`. */
  lemma NamedAt(s: string, sep: string, name: string)
    requires |sep| > 0 && Separators(sep)
    requires |name| > 0 && WordChars(name)
    requires 8 + |sep| + |name| <= |s| && s[0..8] == "provider"
    requires s[8..8 + |sep|] == sep && s[8 + |sep|..8 + |sep| + |name|] == name
    requires 8 + |sep| + |name| == |s| || !IsWordChar(s[8 + |sep| + |name|])
    ensures FindTag(s, 0) == Some(name)
  {
    ProviderKeyword(s);
    SeparatorRunAfterKeyword(s, sep, name);
    WordRunAfterSeparator(s, sep, name);
    FindTagAtStart(s, |sep|, name);
  }

  /** The separator run after the keyword stops where the word begins. */
  lemma SeparatorRunAfterKeyword(s: string, sep: string, name: string)
    requires |sep| > 0 && forall k :: 0 <= k < |sep| ==> IsSeparator(sep[k])
    requires |name| > 0 && forall k :: 0 <= k < |name| ==> IsWordChar(name[k])
    requires 8 + |sep| + |name| <= |s|
    requires s[8..8 + |sep|] == sep && s[8 + |sep|..8 + |sep| + |name|] == name
    ensures SeparatorRun(s, 8) == |sep|
  {
    var w := 8 + |sep|;
    assert s[w] == s[w..w + |name|][0];
    WordCharNotSeparator(name[0]);
    SeparatorRunIn(s, 8, sep);
  }

  /** The word run after the separators is exactly the name. */
  lemma WordRunAfterSeparator(s: string, sep: string, name: string)
    requires forall k :: 0 <= k < |name| ==> IsWordChar(name[k])
    requires 8 + |sep| + |name| <= |s| && s[8 + |sep|..8 + |sep| + |name|] == name
    requires 8 + |sep| + |name| == |s| || !IsWordChar(s[8 + |sep| + |name|])
    ensures WordRun(s, 8 + |sep|) == |name|
  {
    WordRunIn(s, 8 + |sep|, name);
  }

  /** The keyword is matched case-insensitively, so its lower-case spelling matches. */
  lemma ProviderKeyword(s: string)
    requires 8 <= |s| && s[0..8] == "provider"
    ensures KeywordAt(s, 0)
  {
    assert ToLowerAscii("provider") == "provider";
  }

  /** The two classes of the pattern are disjoint: no word character is `:` or white space. */
  lemma WordCharNotSeparator(c: char)
    requires IsWordChar(c)
    ensures !IsSeparator(c)
  {
  }

  /** The separator run at `i` covers `sep` when `sep` is written there and no separator follows. */
  lemma SeparatorRunIn(s: string, i: nat, sep: string)
    requires i + |sep| <= |s| && s[i..i + |sep|] == sep
    requires forall k :: 0 <= k < |sep| ==> IsSeparator(sep[k])
    requires i + |sep| == |s| || !IsSeparator(s[i + |sep|])
    ensures SeparatorRun(s, i) == |sep|
  {
    forall k | i <= k < i + |sep| ensures IsSeparator(s[k]) {
      assert s[k] == s[i..i + |sep|][k - i];
    }
    SeparatorRunOf(s, i, |sep|);
  }

  /** The word run at `i` covers `name` when `name` is written there and no word character follows. */
  lemma WordRunIn(s: string, i: nat, name: string)
    requires i + |name| <= |s| && s[i..i + |name|] == name
    requires forall k :: 0 <= k < |name| ==> IsWordChar(name[k])
    requires i + |name| == |s| || !IsWordChar(s[i + |name|])
    ensures WordRun(s, i) == |name|
  {
    forall k | i <= k < i + |name| ensures IsWordChar(s[k]) {
      assert s[k] == s[i..i + |name|][k - i];
    }
    WordRunOf(s, i, |name|);
  }

  /** A text that starts with the keyword, a separator run and a word run is tagged with that word. */
  lemma FindTagAtStart(s: string, sep: nat, name: string)
    requires KeywordAt(s, 0) && 8 + sep + |name| <= |s| && sep > 0 && |name| > 0
    requires SeparatorRun(s, 8) == sep && WordRun(s, 8 + sep) == |name|
    requires s[8 + sep..8 + sep + |name|] == name
    ensures FindTag(s, 0) == Some(name)
  {
    assert MatchAt(s, 0) == Some(name);
  }

  /** A system message `provider:` with the name on the next line routes to that provider. */
  lemma ProviderAfterLineBreak()
    ensures ProviderName([Message("system", "provider:\nopenai")]) == "openai"
  {
    assert "provider" + ":\n" + "openai" + "" == "provider:\nopenai";
    NamedProvider(":\n", "openai", "");
  }

  /** The first system message, as `messages.find` returns it. */
  function FirstSystem(messages: seq<Message>): (r: Option<Message>)
    ensures r.Some? ==> r.value in messages && r.value.role == "system"
    ensures r.None? ==> forall k :: 0 <= k < |messages| ==> messages[k].role != "system"
    ensures forall i :: (0 <= i < |messages| && messages[i].role == "system" &&
                         (forall j :: 0 <= j < i ==> messages[j].role != "system")) ==> r == Some(messages[i])
    decreases |messages|
  {
    if |messages| == 0 then None
    else if messages[0].role == "system" then Some(messages[0])
    else
      assert forall i :: 1 <= i < |messages| ==> messages[1..][i - 1] == messages[i];
      FirstSystem(messages[1..])
  }

  /** The provider name: the capture in the first system message, or `mock`. */
  function ProviderName(messages: seq<Message>): (name: string)
    ensures FirstSystem(messages).None? ==> name == "mock"
    ensures FirstSystem(messages).Some? ==> name == FindTag(FirstSystem(messages).value.content, 0).GetOr("mock")
  {
    match FirstSystem(messages)
    case None => "mock"
    case Some(m) => FindTag(m.content, 0).GetOr("mock")
  }

  // ---------------------------------------------------------------------------
  // The relay
  // ---------------------------------------------------------------------------

  /** What the provider's stream yields: its reads in order, then its end or a read that throws. */
  datatype Upstream = Upstream(parts: seq<string>, failure: Option<Thrown>)

  const DonePayload: Json := JObj([("type", JStr("done"))])

  function ErrorPayload(message: string): Json {
    JObj([("type", JStr("error")), ("error", JStr(message))])
  }

  /** The frame a processor callback enqueues. */
  function EventFrame(e: Event): string {
    match e
    case Chunk(payload) => DataFrame(payload)
    case Complete => DataFrame(DonePayload)
    case Failure(message) => DataFrame(ErrorPayload(message))
  }

  /** `onComplete` and `onError` close the controller. */
  predicate Closes(e: Event) {
    !e.Chunk?
  }

  /**
   * What the client receives for the callbacks fired: their frames up to and
   * including the first that closes the controller (an `enqueue` after
   * `close` throws, so nothing later reaches the client), and whether it was closed.
   */
  function Visible(events: seq<Event>): (r: (seq<string>, bool))
    ensures |r.0| <= |events|
    decreases |events|
  {
    if |events| == 0 then ([], false)
    else if Closes(events[0]) then ([EventFrame(events[0])], true)
    else
      var rest := Visible(events[1..]);
      ([EventFrame(events[0])] + rest.0, rest.1)
  }

  /** The message the outer handler of the stream reports for a failed read. */
  function ReadErrorMessage(e: Thrown): string {
    if e.ErrorValue? then e.message else "Unknown error"
  }

  /** The frames and the closed flag for an upstream, read through a fresh processor. */
  function RelayOutcome(upstream: Upstream, parse: string -> Option<Json>): (seq<string>, bool) {
    var fed := Feed("", upstream.parts, LineStep(parse));
    var events := fed.events + (if upstream.failure.None? then FlushEvents(fed.rest, parse) else []);
    var (frames, closed) := Visible(events);
    if !closed && upstream.failure.Some? then
      (frames + [DataFrame(ErrorPayload(ReadErrorMessage(upstream.failure.value)))], true)
    else (frames, closed)
  }

  /** Feeding one more read of the same stream, as `FeedSnoc` states it for a prefix. */
  lemma FeedPrefix(parts: seq<string>, i: nat, act: string -> LineAction)
    requires i < |parts|
    ensures var f := Feed("", parts[..i], act);
            var d := Drain(f.rest + parts[i], act);
            Feed("", parts[..i + 1], act) == Drained(f.events + d.events, d.rest)
  {
    assert parts[..i + 1] == parts[..i] + [parts[i]];
    FeedSnoc("", parts[..i], parts[i], act);
  }

  /** The `while (reading)` loop of the response stream: every read goes through `processChunk`, in order. */
  method FeedParts(processor: StreamProcessor, parts: seq<string>, ghost parse: string -> Option<Json>)
    requires processor.parse == parse && processor.buffer == "" && processor.events == []
    modifies processor
    ensures processor.events == Feed("", parts, LineStep(parse)).events
    ensures processor.buffer == Feed("", parts, LineStep(parse)).rest
  {
    for i := 0 to |parts|
      invariant Drained(processor.events, processor.buffer) == Feed("", parts[..i], LineStep(parse))
    {
      FeedPrefix(parts, i, LineStep(parse));
      processor.ProcessChunk(parts[i]);
    }
    assert parts[..|parts|] == parts;
  }

  /** The `start` of the response stream: reads, feeds the processor, flushes at the end. */
  method RelayStream(upstream: Upstream, parse: string -> Option<Json>) returns (frames: seq<string>, closed: bool)
    ensures (frames, closed) == RelayOutcome(upstream, parse)
  {
    var processor := new StreamProcessor(parse);
    FeedParts(processor, upstream.parts, parse);
    ghost var fed := Feed("", upstream.parts, LineStep(parse));
    if upstream.failure.None? {
      processor.Flush();
      assert processor.events == fed.events + FlushEvents(fed.rest, parse);
    } else {
      assert processor.events == fed.events + [];
    }
    var visible := Visible(processor.events);
    frames, closed := visible.0, visible.1;
    if !closed && upstream.failure.Some? {
      var message := ReadErrorMessage(upstream.failure.value);
      frames := frames + [DataFrame(ErrorPayload(message))];
      closed := true;
    }
  }

  /** The index of the first callback that closes the controller, or the number of callbacks. */
  function FirstClose(events: seq<Event>): (n: nat)
    ensures n <= |events|
    ensures n < |events| ==> Closes(events[n])
    ensures forall k :: 0 <= k < n ==> !Closes(events[k])
    decreases |events|
  {
    if |events| == 0 then 0
    else if Closes(events[0]) then 0
    else 1 + FirstClose(events[1..])
  }

  /**
   * The client sees one frame per fired callback, in order, up to and
   * including the first closing one, and the stream is closed exactly when
   * some callback closes it.
   */
  lemma {:induction false} VisibleShape(events: seq<Event>)
    ensures var n := FirstClose(events);
            && Visible(events).1 == (n < |events|)
            && |Visible(events).0| == (if n < |events| then n + 1 else n)
            && forall k :: 0 <= k < |Visible(events).0| ==> Visible(events).0[k] == EventFrame(events[k])
    decreases |events|
  {
    if |events| > 0 && !Closes(events[0]) {
      VisibleShape(events[1..]);
      var frames := Visible(events).0;
      forall k | 1 <= k < |frames|
        ensures frames[k] == EventFrame(events[k])
      {
        assert frames[k] == Visible(events[1..]).0[k - 1];
        assert events[1..][k - 1] == events[k];
      }
    }
  }

  /** Chunk frames only: with no `[DONE]` line and no parse error the stream is never closed. */
  lemma RelayOpenWithoutClosingEvent(upstream: Upstream, parse: string -> Option<Json>)
    requires upstream.failure.None?
    requires var fed := Feed("", upstream.parts, LineStep(parse));
             forall e :: e in fed.events + FlushEvents(fed.rest, parse) ==> e.Chunk?
    ensures !RelayOutcome(upstream, parse).1
  {
    var fed := Feed("", upstream.parts, LineStep(parse));
    var events := fed.events + FlushEvents(fed.rest, parse);
    VisibleShape(events);
  }

  /** A read that throws before the stream closed ends it with one error frame. */
  lemma ReadFailureFrame(upstream: Upstream, parse: string -> Option<Json>)
    requires upstream.failure.Some?
    requires !Visible(Feed("", upstream.parts, LineStep(parse)).events).1
    ensures var (frames, closed) := RelayOutcome(upstream, parse);
            closed && |frames| >= 1
            && frames[|frames| - 1] == DataFrame(ErrorPayload(ReadErrorMessage(upstream.failure.value)))
  {
    var fed := Feed("", upstream.parts, LineStep(parse));
    assert fed.events + [] == fed.events;
  }

  // ---------------------------------------------------------------------------
  // The mock provider's stream through the relay
  // ---------------------------------------------------------------------------

  /** Each payload of the mock stream prints on one line. */
  lemma MockPayloadsPlain(model: string, now: nat, text: string, k: nat)
    requires k < |text| + 3
    ensures MockProvider.StreamPayloads(model, now, text)[k].JObj?
    ensures PlainNumbers(MockProvider.StreamPayloads(model, now, text)[k])
  {
    var p := MockProvider.StreamPayloads(model, now, text)[k];
    assert p == MockProvider.FrameAt(model, now, text, k).0;
    if k == |text| + 1 {
      var usage := MockProvider.UsagePayload(|text|).members[1].1;
      assert PlainNumbers(usage) by {
        forall j | 0 <= j < |usage.members| ensures PlainNumbers(usage.members[j].1) {
          var lit := usage.members[j].1.literal;
          assert forall c :: c in lit ==> '0' <= c <= '9';
        }
      }
    } else if k == 0 {
      var lit := NatToString(now);
      assert forall c :: c in lit ==> '0' <= c <= '9';
    }
  }

  lemma DrainEmpty(act: string -> LineAction)
    ensures Drain("", act) == Drained([], "")
  {
    assert IndexOf("", '\n') == -1;
  }

  /** A read holding one line that fires `e`, and possibly a blank line after it, fires `e` and leaves nothing buffered. */
  lemma DrainOneLine(line: string, end: string, e: Event, act: string -> LineAction)
    requires '\n' !in line && act(line) == Emit(e) && act("") == NoEvent
    requires end == "" || end == "\n"
    ensures Drain(line + "\n" + end, act) == Drained([e], "")
  {
    DrainLine(line, end, act);
    DrainEmpty(act);
    if end == "\n" {
      DrainLine("", "", act);
      assert "" + "\n" + "" == end;
    }
  }

  /** A `data: ` frame of an object fires exactly that object and leaves nothing buffered. */
  lemma DrainObjectRead(payload: Json, end: string, parse: string -> Option<Json>)
    requires payload.JObj? && PlainNumbers(payload)
    requires parse(Serialize(payload)) == Some(payload)
    requires end == "" || end == "\n"
    ensures Drain("data: " + Serialize(payload) + "\n" + end, LineStep(parse)) == Drained([Chunk(payload)], "")
  {
    var line := "data: " + Serialize(payload);
    SerializeSingleLine(payload);
    assert '\n' !in line;
    DataLineAction(payload, parse);
    BlankLineIgnored(parse);
    DrainOneLine(line, end, Chunk(payload), LineStep(parse));
  }

  /** A chunk callback per payload. */
  function ChunkEvents(payloads: seq<Json>): (r: seq<Event>)
    ensures |r| == |payloads|
    ensures forall k :: 0 <= k < |r| ==> r[k] == Chunk(payloads[k])
    decreases |payloads|
  {
    if |payloads| == 0 then [] else [Chunk(payloads[0])] + ChunkEvents(payloads[1..])
  }

  /** A `data:` frame per payload. */
  function DataFrames(payloads: seq<Json>): (r: seq<string>)
    ensures |r| == |payloads|
    ensures forall k :: 0 <= k < |r| ==> r[k] == DataFrame(payloads[k])
    decreases |payloads|
  {
    if |payloads| == 0 then [] else [DataFrame(payloads[0])] + DataFrames(payloads[1..])
  }

  /** Reads that each fire one object and leave nothing buffered fire those objects in order. */
  lemma {:induction false} FeedObjectReads(parts: seq<string>, payloads: seq<Json>, act: string -> LineAction)
    requires |parts| == |payloads|
    requires forall k :: 0 <= k < |parts| ==> Drain(parts[k], act) == Drained([Chunk(payloads[k])], "")
    ensures Feed("", parts, act) == Drained(ChunkEvents(payloads), "")
    decreases |parts|
  {
    if |parts| > 0 {
      FeedObjectReads(parts[1..], payloads[1..], act);
      assert "" + parts[0] == parts[0];
    }
  }

  /** Chunk callbacks only: every payload is re-emitted as its own frame and nothing closes. */
  lemma {:induction false} VisibleChunks(payloads: seq<Json>)
    ensures Visible(ChunkEvents(payloads)) == (DataFrames(payloads), false)
    decreases |payloads|
  {
    if |payloads| > 0 {
      VisibleChunks(payloads[1..]);
      assert ChunkEvents(payloads)[1..] == ChunkEvents(payloads[1..]);
    }
  }

  /** Each read of the mock stream is one complete `data: ` line that fires the chunk of its payload. */
  lemma MockReadsDrain(model: string, now: nat, text: string, parse: string -> Option<Json>)
    requires var payloads := MockProvider.StreamPayloads(model, now, text);
             forall k :: 0 <= k < |payloads| ==> parse(Serialize(payloads[k])) == Some(payloads[k])
    ensures var payloads := MockProvider.StreamPayloads(model, now, text);
            var parts := MockProvider.StreamChunks(model, now, text);
            |parts| == |payloads|
            && forall k :: 0 <= k < |parts| ==> Drain(parts[k], LineStep(parse)) == Drained([Chunk(payloads[k])], "")
  {
    var payloads := MockProvider.StreamPayloads(model, now, text);
    var parts := MockProvider.StreamChunks(model, now, text);
    MockProvider.StreamFramesCarryPayloads(model, now, text);
    forall k | 0 <= k < |parts|
      ensures Drain(parts[k], LineStep(parse)) == Drained([Chunk(payloads[k])], "")
    {
      MockPayloadsPlain(model, now, text, k);
      DrainObjectRead(payloads[k], if 1 <= k <= |text| then "" else "\n", parse);
    }
  }

  /**
   * The mock provider's stream, relayed: every mock frame reaches the client
   * re-serialized as `data: <JSON>` and a blank line, in order, but the mock
   * ends with `message_stop` rather than `[DONE]`, so no done frame follows
   * and the response stream is never closed.
   */
  lemma MockStreamLeftOpen(model: string, now: nat, text: string, parse: string -> Option<Json>)
    requires var payloads := MockProvider.StreamPayloads(model, now, text);
             forall k :: 0 <= k < |payloads| ==> parse(Serialize(payloads[k])) == Some(payloads[k])
    ensures RelayOutcome(Upstream(MockProvider.StreamChunks(model, now, text), None), parse)
            == (DataFrames(MockProvider.StreamPayloads(model, now, text)), false)
  {
    var payloads := MockProvider.StreamPayloads(model, now, text);
    var parts := MockProvider.StreamChunks(model, now, text);
    MockReadsDrain(model, now, text, parse);
    FeedObjectReads(parts, payloads, LineStep(parse));
    assert FlushEvents("", parse) == [] by {
      assert TrimStart("") == "";
    }
    assert ChunkEvents(payloads) + [] == ChunkEvents(payloads);
    VisibleChunks(payloads);
  }

  // ---------------------------------------------------------------------------
  // POST
  // ---------------------------------------------------------------------------

  /**
   * The request body after `request.json()`: `messages` is `None` when it is
   * missing or not an array, `model` when it is missing, `stream` when it is
   * left out (it then defaults to `true`).
   */
  datatype RequestBody = RequestBody(messages: Option<seq<Message>>, model: Option<string>, stream: Option<bool>)

  /** What the endpoint produces: an `error(status, message)` it raises, a JSON reply, or an event stream. */
  datatype Outcome =
    | Raised(status: int, message: string)
    | JsonReply(reply: ChatResponse)
    | EventStream(headers: seq<(string, string)>, frames: seq<string>, closed: bool)

  const StreamHeaders: seq<(string, string)> :=
    [("Content-Type", "text/event-stream"), ("Cache-Control", "no-cache"), ("Connection", "keep-alive")]

  const MessagesRequired: string := "Messages array is required and cannot be empty"
  const ModelRequired: string := "Model parameter is required"

  function NotFoundMessage(name: string): string {
    "Provider '" + name + "' not found"
  }

  /**
   * The endpoint on given registry contents. `upstream` is what the chosen
   * adapter's `stream` yields and `reply` what its `chat` resolves to.
   */
  function PostOutcome(entries: map<string, ProviderRegistry.ProviderEntry>, body: RequestBody, upstream: Upstream,
                       reply: ChatResponse, parse: string -> Option<Json>): Outcome
  {
    if body.messages.None? || |body.messages.value| == 0 then Raised(400, MessagesRequired)
    else if body.model.None? || body.model.value == "" then Raised(400, ModelRequired)
    else
      var name := ProviderName(body.messages.value);
      if ProviderRegistry.Served(entries, name).None? then Raised(404, NotFoundMessage(name))
      else if body.stream.GetOr(true) then
        var (frames, closed) := RelayOutcome(upstream, parse);
        EventStream(StreamHeaders, frames, closed)
      else JsonReply(reply)
  }

  /** `POST /api/chat`. */
  method Post(registry: ProviderRegistry.ProviderRegistry, body: RequestBody, upstream: Upstream, reply: ChatResponse,
              parse: string -> Option<Json>) returns (outcome: Outcome)
    ensures outcome == PostOutcome(registry.entries, body, upstream, reply, parse)
  {
    if body.messages.None? || |body.messages.value| == 0 {
      return Raised(400, MessagesRequired);
    }
    if body.model.None? || body.model.value == "" {
      return Raised(400, ModelRequired);
    }
    var providerName := ProviderName(body.messages.value);
    var provider := registry.GetProvider(providerName);
    if provider.None? {
      return Raised(404, NotFoundMessage(providerName));
    }
    if body.stream.GetOr(true) {
      var frames, closed := RelayStream(upstream, parse);
      return EventStream(StreamHeaders, frames, closed);
    }
    return JsonReply(reply);
  }

  /** The checks, in order: messages, then model, then the provider; each rejection has its status. */
  lemma RejectionsInOrder(entries: map<string, ProviderRegistry.ProviderEntry>, body: RequestBody, upstream: Upstream,
                          reply: ChatResponse, parse: string -> Option<Json>)
    ensures var out := PostOutcome(entries, body, upstream, reply, parse);
            && (body.messages.None? || |body.messages.value| == 0 <==> out == Raised(400, MessagesRequired))
            && (out == Raised(400, ModelRequired) <==>
                  body.messages.Some? && |body.messages.value| > 0 && (body.model.None? || body.model.value == ""))
            && (out.Raised? && out.status == 404 <==>
                  body.messages.Some? && |body.messages.value| > 0 && body.model.Some? && body.model.value != ""
                  && ProviderRegistry.Served(entries, ProviderName(body.messages.value)).None?)
  {
  }

  /** A valid request to a served provider streams unless `stream` is explicitly `false`. */
  lemma StreamsByDefault(entries: map<string, ProviderRegistry.ProviderEntry>, body: RequestBody, upstream: Upstream,
                         reply: ChatResponse, parse: string -> Option<Json>)
    requires body.messages.Some? && |body.messages.value| > 0 && body.model.Some? && body.model.value != ""
    requires ProviderRegistry.Served(entries, ProviderName(body.messages.value)).Some?
    ensures var out := PostOutcome(entries, body, upstream, reply, parse);
            (out.EventStream? <==> body.stream != Some(false))
            && (out.JsonReply? <==> body.stream == Some(false))
            && (out.JsonReply? ==> out.reply == reply)
            && (out.EventStream? ==> out.headers == StreamHeaders && (out.frames, out.closed) == RelayOutcome(upstream, parse))
  {
  }

  /** Without a system message the request goes to `mock`, which a fresh registry serves. */
  lemma DefaultProviderIsMock(messages: seq<Message>)
    requires forall k :: 0 <= k < |messages| ==> messages[k].role != "system"
    ensures ProviderName(messages) == "mock"
    ensures ProviderRegistry.Served(map["mock" := ProviderRegistry.MockEntry], ProviderName(messages)).Some?
  {
  }
}
