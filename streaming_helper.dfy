/**
 * `StreamingHelper`: the line-buffered SSE processor the chat route drives,
 * error normalisation, and the retry wrapper.
 *
 * A processor keeps the text that has not yet been cut into lines in
 * `buffer`; every callback it fires is appended to `events`, in order.
 */
module StreamingHelper {
  import opened Wrappers
  import opened Text
  import opened Json
  import opened JsValues

  // ---------------------------------------------------------------------------
  // normalizeError
  // ---------------------------------------------------------------------------

  const UnknownError: string := "An unknown error occurred"

  /** The text shown for a thrown value. */
  function NormalizeError(e: Thrown): (msg: string)
    ensures e.ErrorValue? ==> msg == e.message
    ensures e.StringValue? ==> msg == e.text
    ensures e.MessageObject? ==> msg == e.messageText
    ensures e.OtherValue? ==> msg == UnknownError
  {
    match e
    case ErrorValue(m) => m
    case StringValue(t) => t
    case MessageObject(t) => t
    case OtherValue => UnknownError
  }

  // ---------------------------------------------------------------------------
  // createRetryWrapper
  // ---------------------------------------------------------------------------

  /** What one call of the wrapped function does. */
  datatype Attempt<T> = Succeeded(value: T) | Threw(error: Thrown)

  /** How the wrapper's promise settles; a rejection with no attempt made carries `undefined`. */
  datatype Settled<T> = Resolved(value: T) | Rejected(reason: Option<Thrown>)

  /** The number of calls the loop allows: `maxRetries + 1`, or none for a negative count. */
  function AllowedCalls(maxRetries: int): nat {
    if maxRetries < 0 then 0 else maxRetries + 1
  }

  /**
   * `createRetryWrapper(fn, maxRetries)`: `attempt(i)` is what the `i`-th call
   * of `fn` does. The delays between calls are not modelled.
   */
  method RetryWrapper<T>(attempt: nat -> Attempt<T>, maxRetries: int) returns (calls: nat, result: Settled<T>)
    ensures calls <= AllowedCalls(maxRetries)
    ensures forall i :: 0 <= i < calls - 1 ==> attempt(i).Threw?
    ensures result.Resolved? <==> calls > 0 && attempt(calls - 1).Succeeded?
    ensures result.Resolved? ==> result.value == attempt(calls - 1).value
    ensures result.Rejected? ==> calls == AllowedCalls(maxRetries)
    ensures result.Rejected? && calls > 0 ==> result.reason == Some(attempt(calls - 1).error)
    ensures result.Rejected? && calls == 0 ==> result.reason == None
  {
    var lastError: Option<Thrown> := None;
    var i := 0;
    calls := 0;
    while i <= maxRetries
      invariant 0 <= i && calls == i
      invariant maxRetries >= 0 ==> i <= maxRetries + 1
      invariant maxRetries < 0 ==> i == 0
      invariant forall k :: 0 <= k < i ==> attempt(k).Threw?
      invariant i > 0 ==> lastError == Some(attempt(i - 1).error)
      invariant i == 0 ==> lastError == None
    {
      var outcome := attempt(i);
      calls := calls + 1;
      if outcome.Succeeded? {
        return calls, Resolved(outcome.value);
      }
      lastError := Some(outcome.error);
      i := i + 1;
    }
    result := Rejected(lastError);
  }

  // ---------------------------------------------------------------------------
  // createStreamProcessor
  // ---------------------------------------------------------------------------

  /** A callback invocation: `onChunk`, `onComplete` or `onError` (with the error's message). */
  datatype Event = Chunk(payload: Json) | Complete | Failure(message: string)

  /** What one complete line does. */
  datatype LineAction = NoEvent | Emit(event: Event) | Done

  /** The processing of one line: trimmed, then only `data: ` lines count. */
  function LineActionOf(line: string, parse: string -> Option<Json>): LineAction {
    TrimmedLineAction(Trim(line), parse)
  }

  /** What a line does once trimmed. */
  function TrimmedLineAction(t: string, parse: string -> Option<Json>): LineAction {
    if !StartsWith(t, "data: ") then NoEvent
    else
      var data := t[6..];
      if data == "[DONE]" then Done
      else match parse(data)
        case None => Emit(Failure("Failed to parse chunk: " + data))
        case Some(chunk) => Emit(Chunk(chunk))
  }

  /**
   * The line processing of a processor built over `parse`. The lemmas below
   * hold for any way of processing one line; `LineStep(parse)` is the one the
   * processor uses.
   */
  function LineStep(parse: string -> Option<Json>): string -> LineAction {
    line => LineActionOf(line, parse)
  }

  /** A line ends the stream exactly when, trimmed, it reads `data: [DONE]`. */
  lemma DoneLineIff(line: string, parse: string -> Option<Json>)
    ensures LineStep(parse)(line).Done? <==> Trim(line) == "data: [DONE]"
  {
    assert LineStep(parse)(line) == LineActionOf(line, parse);
    var t := Trim(line);
    assert LineActionOf(line, parse).Done? <==> StartsWith(t, "data: ") && t[6..] == "[DONE]";
    DoneText(t);
  }

  /** `data: ` followed by `[DONE]` is the text `data: [DONE]`, and nothing else is. */
  lemma DoneText(t: string)
    ensures (StartsWith(t, "data: ") && t[6..] == "[DONE]") <==> t == "data: [DONE]"
  {
    if StartsWith(t, "data: ") && t[6..] == "[DONE]" {
      assert t == t[..6] + t[6..];
    }
    if t == "data: [DONE]" {
      assert StartsWith(t, "data: ");
      assert t[6..] == "[DONE]";
    }
  }

  /** The events a run of processing fires and the buffer it leaves. */
  datatype Drained = Drained(events: seq<Event>, rest: string)

  /**
   * One line's effect in front of the processing of what follows it: a
   * `[DONE]` line fires `onComplete` and leaves `remaining` buffered.
   */
  function Then(action: LineAction, remaining: string, next: Drained): Drained {
    match action
    case Done => Drained([Complete], remaining)
    case NoEvent => next
    case Emit(e) => Drained([e] + next.events, next.rest)
  }

  /** The inner `while (true)` loop of `processChunk`, from the buffer it starts with. */
  function Drain(buffer: string, act: string -> LineAction): Drained
    decreases |buffer|
  {
    var i := IndexOf(buffer, '\n');
    if i == -1 then Drained([], buffer)
    else
      var tail := buffer[i + 1..];
      Then(act(buffer[..i]), tail, Drain(tail, act))
  }

  /** One turn of the loop: the first complete line, then the rest of the buffer. */
  lemma DrainStep(buffer: string, act: string -> LineAction)
    requires IndexOf(buffer, '\n') >= 0
    ensures var i := IndexOf(buffer, '\n');
            Drain(buffer, act) == Then(act(buffer[..i]), buffer[i + 1..], Drain(buffer[i + 1..], act))
  {
  }

  /**
   * The same processing stated on the complete lines and the unterminated
   * rest: the lines in order, each once, until a `[DONE]` line, after which
   * the unread lines and the rest stay buffered.
   */
  function DrainLines(lines: seq<string>, rest: string, act: string -> LineAction): Drained
    decreases |lines|
  {
    if |lines| == 0 then Drained([], rest)
    else Then(act(lines[0]), Join(lines[1..] + [rest], "\n"), DrainLines(lines[1..], rest, act))
  }

  /** `processChunk`'s index-and-slice loop decodes exactly the complete lines of its buffer, in order. */
  lemma {:induction false} DrainIsLineByLine(buffer: string, act: string -> LineAction)
    ensures Drain(buffer, act) == DrainLines(Lines(buffer), Rest(buffer), act)
    decreases |buffer|
  {
    var i := IndexOf(buffer, '\n');
    if i == -1 {
      SplitNoNewline(buffer);
    } else {
      var tail := buffer[i + 1..];
      LinesAtFirstNewline(buffer);
      var lines := Lines(buffer);
      assert lines[0] == buffer[..i] && lines[1..] == Lines(tail);
      JoinLinesRest(tail);
      DrainIsLineByLine(tail, act);
    }
  }

  /** The event a line fires, if it is not a `[DONE]` line. */
  function EventOf(action: LineAction): seq<Event> {
    if action.Emit? then [action.event] else []
  }

  /** A line other than `[DONE]` fires its event in front of what follows. */
  lemma ThenNotDone(action: LineAction, remaining: string, next: Drained)
    requires !action.Done?
    ensures Then(action, remaining, next) == Drained(EventOf(action) + next.events, next.rest)
  {
    if action.NoEvent? {
      assert EventOf(action) + next.events == next.events;
    }
  }

  /** The events of lines that hold no `[DONE]` line. */
  function LineEvents(lines: seq<string>, act: string -> LineAction): seq<Event>
    decreases |lines|
  {
    if |lines| == 0 then [] else EventOf(act(lines[0])) + LineEvents(lines[1..], act)
  }

  lemma {:induction false} LineEventsAppend(a: seq<string>, b: seq<string>, act: string -> LineAction)
    ensures LineEvents(a + b, act) == LineEvents(a, act) + LineEvents(b, act)
    decreases |a|
  {
    if |a| == 0 {
      assert a + b == b;
    } else {
      assert (a + b)[0] == a[0] && (a + b)[1..] == a[1..] + b;
      LineEventsAppend(a[1..], b, act);
    }
  }

  /** Without a `[DONE]` line every complete line is decoded and only the rest stays buffered. */
  lemma {:induction false} DrainLinesWithoutDone(lines: seq<string>, rest: string, act: string -> LineAction)
    requires forall k :: 0 <= k < |lines| ==> !act(lines[k]).Done?
    ensures DrainLines(lines, rest, act) == Drained(LineEvents(lines, act), rest)
    decreases |lines|
  {
    if |lines| > 0 {
      var action := act(lines[0]);
      assert !act(lines[0]).Done?;
      assert forall k :: 0 <= k < |lines[1..]| ==> lines[1..][k] == lines[k + 1];
      DrainLinesWithoutDone(lines[1..], rest, act);
      ThenNotDone(action, Join(lines[1..] + [rest], "\n"), DrainLines(lines[1..], rest, act));
    }
  }

  /** A `[DONE]` line stops processing: nothing after it is decoded, and it all stays in the buffer. */
  lemma DoneLineStops(before: seq<string>, line: string, after: seq<string>, rest: string, act: string -> LineAction)
    requires forall k :: 0 <= k < |before| ==> !act(before[k]).Done?
    requires act(line).Done?
    ensures DrainLines(before + [line] + after, rest, act) ==
              Drained(LineEvents(before, act) + [Complete], Join(after + [rest], "\n"))
  {
    DoneLineStopsAt(before, line, after, rest, act);
  }

  lemma {:induction false} DoneLineStopsAt(before: seq<string>, line: string, after: seq<string>, rest: string,
                                           act: string -> LineAction)
    requires forall k :: 0 <= k < |before| ==> !act(before[k]).Done?
    requires act(line).Done?
    ensures DrainLines(before + [line] + after, rest, act) ==
              Drained(LineEvents(before, act) + [Complete], Join(after + [rest], "\n"))
    decreases |before|
  {
    var all := before + [line] + after;
    if |before| == 0 {
      assert all[0] == line && all[1..] == after;
    } else {
      var b1 := before[1..];
      assert all[0] == before[0] && all[1..] == b1 + [line] + after;
      assert forall k :: 0 <= k < |b1| ==> !act(b1[k]).Done? by {
        forall k | 0 <= k < |b1| ensures !act(b1[k]).Done? {
          assert b1[k] == before[k + 1];
        }
      }
      DoneLineStopsAt(b1, line, after, rest, act);
      var action := act(before[0]);
      assert !action.Done? by {
        assert !act(before[0]).Done?;
      }
      var next := DrainLines(all[1..], rest, act);
      assert DrainLines(all, rest, act) == Then(action, Join(all[1..] + [rest], "\n"), next);
      ThenNotDone(action, Join(all[1..] + [rest], "\n"), next);
      assert LineEvents(before, act) == EventOf(action) + LineEvents(b1, act);
    }
  }

  /** What `processChunk` does for each read in turn, from a given buffer. */
  function Feed(buffer: string, chunks: seq<string>, act: string -> LineAction): Drained
    decreases |chunks|
  {
    if |chunks| == 0 then Drained([], buffer)
    else
      var d := Drain(buffer + chunks[0], act);
      var r := Feed(d.rest, chunks[1..], act);
      Drained(d.events + r.events, r.rest)
  }

  /** No line of `lines` is a `[DONE]` line. */
  predicate NoDoneLine(lines: seq<string>, act: string -> LineAction) {
    forall k :: 0 <= k < |lines| ==> !act(lines[k]).Done?
  }

  lemma NoDoneLineSplit(a: seq<string>, b: seq<string>, act: string -> LineAction)
    requires NoDoneLine(a + b, act)
    ensures NoDoneLine(a, act) && NoDoneLine(b, act)
  {
    forall k | 0 <= k < |a| ensures !act(a[k]).Done? {
      assert a[k] == (a + b)[k];
    }
    forall k | 0 <= k < |b| ensures !act(b[k]).Done? {
      assert b[k] == (a + b)[|a| + k];
    }
  }

  /** One more read processes its text after everything before it. */
  lemma {:induction false} FeedSnoc(buffer: string, chunks: seq<string>, c: string, act: string -> LineAction)
    ensures var f := Feed(buffer, chunks, act);
            var d := Drain(f.rest + c, act);
            Feed(buffer, chunks + [c], act) == Drained(f.events + d.events, d.rest)
    decreases |chunks|
  {
    if |chunks| == 0 {
      assert chunks + [c] == [c];
      assert [c][1..] == [];
      var d := Drain(buffer + c, act);
      assert d.events + [] == d.events;
    } else {
      assert (chunks + [c])[0] == chunks[0] && (chunks + [c])[1..] == chunks[1..] + [c];
      var d0 := Drain(buffer + chunks[0], act);
      FeedSnoc(d0.rest, chunks[1..], c, act);
      var f1 := Feed(d0.rest, chunks[1..], act);
      var d := Drain(f1.rest + c, act);
      assert d0.events + (f1.events + d.events) == (d0.events + f1.events) + d.events;
    }
  }

  /** A line ended by a newline is handled before the text after it. */
  lemma DrainLine(line: string, post: string, act: string -> LineAction)
    requires '\n' !in line
    ensures Drain(line + "\n" + post, act) == Then(act(line), post, Drain(post, act))
  {
    var s := line + "\n" + post;
    assert s[|line|] == '\n';
    assert s[..|line|] == line;
    assert s[|line| + 1..] == post;
    assert IndexOf(s, '\n') == |line|;
    DrainStep(s, act);
  }

  /** A `data: ` line carrying a JSON object fires that object when the parser reads it back. */
  lemma DataLineAction(payload: Json, parse: string -> Option<Json>)
    requires payload.JObj?
    requires parse(Serialize(payload)) == Some(payload)
    ensures LineStep(parse)("data: " + Serialize(payload)) == Emit(Chunk(payload))
  {
    var text := Serialize(payload);
    var line := "data: " + text;
    assert line[0] == 'd' && line[|line| - 1] == text[|text| - 1] == '}';
    TrimUnchanged(line);
    assert StartsWith(line, "data: ");
    assert line[6..] == text;
    assert text != "[DONE]" by {
      assert text[0] == '{';
    }
  }

  /** White space around a line, such as the `\r` of a CRLF stream, changes nothing. */
  lemma PaddedLineSameAction(pre: string, line: string, post: string, parse: string -> Option<Json>)
    requires forall k :: 0 <= k < |pre| ==> IsWhitespace(pre[k])
    requires forall k :: 0 <= k < |post| ==> IsWhitespace(post[k])
    ensures LineStep(parse)(pre + line + post) == LineStep(parse)(line)
  {
    TrimPadded(pre, line, post);
  }

  /** A CRLF event stream ends at `data: [DONE]` followed by its carriage return. */
  lemma CrlfDoneLine(parse: string -> Option<Json>)
    ensures LineStep(parse)("data: [DONE]\r").Done?
  {
    var line := "data: [DONE]";
    assert [] + line + "\r" == "data: [DONE]\r";
    PaddedLineSameAction([], line, "\r", parse);
    TrimUnchanged(line);
    DoneLineIff(line, parse);
  }

  /** A blank line fires nothing. */
  lemma BlankLineIgnored(parse: string -> Option<Json>)
    ensures LineStep(parse)("") == NoEvent
  {
    assert TrimStart("") == "";
    assert Trim("") == "";
  }

  /**
   * Over several reads without a `[DONE]` line, the events are those of the
   * complete lines of all the text, whatever the cuts between reads, and the
   * buffer keeps the unterminated rest.
   */
  lemma {:induction false} FeedWithoutDone(buffer: string, chunks: seq<string>, act: string -> LineAction)
    requires '\n' !in buffer
    requires NoDoneLine(Lines(buffer + Concat(chunks)), act)
    ensures Feed(buffer, chunks, act) ==
              Drained(LineEvents(Lines(buffer + Concat(chunks)), act), Rest(buffer + Concat(chunks)))
    decreases |chunks|
  {
    if |chunks| == 0 {
      assert buffer + Concat(chunks) == buffer;
      SplitNoNewline(buffer);
    } else {
      var first := buffer + chunks[0];
      var later := Concat(chunks[1..]);
      assert buffer + Concat(chunks) == first + later by {
        ConcatFirst(chunks);
      }
      LinesAppend(first, later);
      NoDoneLineSplit(Lines(first), Lines(Rest(first) + later), act);
      DrainIsLineByLine(first, act);
      DrainLinesWithoutDone(Lines(first), Rest(first), act);
      FeedWithoutDone(Rest(first), chunks[1..], act);
      LineEventsAppend(Lines(first), Lines(Rest(first) + later), act);
    }
  }

  /** How the reads are cut does not change the events, as long as no `[DONE]` line comes. */
  lemma ProcessorChunkSplitInvariant(c1: seq<string>, c2: seq<string>, act: string -> LineAction)
    requires Concat(c1) == Concat(c2)
    requires NoDoneLine(Lines(Concat(c1)), act)
    ensures Feed("", c1, act) == Feed("", c2, act)
  {
    assert "" + Concat(c1) == Concat(c1) && "" + Concat(c2) == Concat(c2);
    FeedWithoutDone("", c1, act);
    FeedWithoutDone("", c2, act);
  }

  /** What `flush` fires for the text left in the buffer. */
  function FlushEvents(buffer: string, parse: string -> Option<Json>): (r: seq<Event>)
    ensures |r| <= 1
    ensures Trim(buffer) == [] || Trim(buffer)[0] != '{' ==> r == []
  {
    var data := Trim(buffer);
    if data == "" then []
    else if !StartsWith(data, "{") then []
    else match parse(data)
      case Some(chunk) => [Chunk(chunk)]
      case None => [Failure("Failed to parse remaining data: " + buffer)]
  }

  /** A `data: {...}` line left without its newline is never emitted by `flush`. */
  lemma UnterminatedDataLineDropped(buffer: string, parse: string -> Option<Json>)
    requires StartsWith(Trim(buffer), "data: ")
    ensures FlushEvents(buffer, parse) == []
  {
    assert Trim(buffer)[0] == 'd';
  }

  /**
   * A leftover `{...}` text that parses is fired by `flush` whatever white
   * space, line breaks included, comes before or after it.
   */
  lemma LeftoverObjectFlushed(pre: string, text: string, post: string, parse: string -> Option<Json>)
    requires |text| > 0 && text[0] == '{' && text[|text| - 1] == '}' && parse(text).Some?
    requires forall k :: 0 <= k < |pre| ==> IsWhitespace(pre[k])
    requires forall k :: 0 <= k < |post| ==> IsWhitespace(post[k])
    ensures FlushEvents(pre + text + post, parse) == [Chunk(parse(text).value)]
  {
    TrimPadded(pre, text, post);
    TrimUnchanged(text);
    FlushTrimmedObject(pre + text + post, parse);
  }

  /** `flush` fires the parse of the trimmed buffer when that starts with `{` and parses. */
  lemma FlushTrimmedObject(buffer: string, parse: string -> Option<Json>)
    requires |Trim(buffer)| > 0 && Trim(buffer)[0] == '{' && parse(Trim(buffer)).Some?
    ensures FlushEvents(buffer, parse) == [Chunk(parse(Trim(buffer)).value)]
  {
    assert StartsWith(Trim(buffer), "{");
  }

  /** The body of `processChunk`'s loop for one complete line: trim, the `data: ` test, `[DONE]`, `JSON.parse`. */
  method ProcessLine(rawLine: string, parse: string -> Option<Json>) returns (action: LineAction)
    ensures action == LineActionOf(rawLine, parse)
  {
    var line := Trim(rawLine);
    if !StartsWith(line, "data: ") {
      return NoEvent;
    }
    var jsonData := line[6..];
    if jsonData == "[DONE]" {
      return Done;
    }
    match parse(jsonData) {
      case Some(chunk) =>
        action := Emit(Chunk(chunk));
      case None =>
        action := Emit(Failure("Failed to parse chunk: " + jsonData));
    }
  }

  /** Resuming after one line: a `[DONE]` line finishes the run, any other line adds its event. */
  lemma ResumeThen(fired: seq<Event>, d: Drained, next: Drained, tail: string, action: LineAction, target: Drained)
    requires fired + d.events == target.events && d.rest == target.rest
    requires d == Then(action, tail, next)
    ensures action.Done? ==> Drained(fired + [Complete], tail) == target
    ensures !action.Done? ==> (fired + EventOf(action)) + next.events == target.events && next.rest == target.rest
  {
    match action
    case Done =>
    case NoEvent =>
      assert fired + [] == fired;
    case Emit(e) =>
      assert (fired + [e]) + next.events == fired + ([e] + next.events);
  }

  /** The loop invariant of `processChunk`: the events fired so far, then those still to come from `buffer`, make up `target`. */
  predicate Resumes(fired: seq<Event>, buffer: string, parse: string -> Option<Json>, target: Drained) {
    var d := Drain(buffer, LineStep(parse));
    fired + d.events == target.events && d.rest == target.rest
  }

  /**
   * One turn of `processChunk`'s loop keeps its invariant: the events fired so
   * far, then those still to come from the buffer, are the events of the
   * whole run; a `[DONE]` line ends the run with the rest of the buffer.
   */
  lemma ProcessChunkTurn(fired: seq<Event>, buffer: string, i: int, parse: string -> Option<Json>, target: Drained, action: LineAction)
    requires i == IndexOf(buffer, '\n') && i >= 0
    requires action == LineActionOf(buffer[..i], parse)
    requires Resumes(fired, buffer, parse, target)
    ensures action.Done? ==> Drained(fired + [Complete], buffer[i + 1..]) == target
    ensures !action.Done? ==> Resumes(fired + EventOf(action), buffer[i + 1..], parse, target)
  {
    var tail := buffer[i + 1..];
    DrainStep(buffer, LineStep(parse));
    assert LineStep(parse)(buffer[..i]) == action;
    ResumeThen(fired, Drain(buffer, LineStep(parse)), Drain(tail, LineStep(parse)), tail, action, target);
  }

  /** The loop ends at a buffer with no newline: everything has fired and the buffer is the rest. */
  lemma ProcessChunkEnd(fired: seq<Event>, buffer: string, parse: string -> Option<Json>, target: Drained)
    requires IndexOf(buffer, '\n') == -1
    requires Resumes(fired, buffer, parse, target)
    ensures Drained(fired, buffer) == target
  {
    assert Drain(buffer, LineStep(parse)) == Drained([], buffer);
    assert fired + [] == fired;
  }

  /**
   * The `while (true)` loop of `processChunk` over the buffer it starts with:
   * the callbacks it fires and the buffer it leaves.
   */
  method DrainBuffer(buffer: string, parse: string -> Option<Json>) returns (fired: seq<Event>, rest: string)
    ensures Drained(fired, rest) == Drain(buffer, LineStep(parse))
  {
    var buf := buffer;
    fired := [];
    ghost var target := Drain(buffer, LineStep(parse));
    while true
      invariant Resumes(fired, buf, parse, target)
      decreases |buf|
    {
      var newlineIndex := IndexOf(buf, '\n');
      if newlineIndex == -1 {
        ProcessChunkEnd(fired, buf, parse, target);
        return fired, buf;
      }
      var line := buf[..newlineIndex];
      var tail := buf[newlineIndex + 1..];
      var action := ProcessLine(line, parse);
      ProcessChunkTurn(fired, buf, newlineIndex, parse, target, action);
      if action.Done? {
        return fired + [Complete], tail;
      }
      fired := fired + EventOf(action);
      buf := tail;
    }
  }

  /** The stateful processor `createStreamProcessor` returns. */
  class StreamProcessor {
    /** The text received but not yet cut into lines. */
    var buffer: string
    /** Every callback fired so far, in order. */
    var events: seq<Event>
    /** The `JSON.parse` the processor uses. */
    const parse: string -> Option<Json>

    constructor (parse: string -> Option<Json>)
      ensures buffer == "" && events == [] && this.parse == parse
    {
      buffer := "";
      events := [];
      this.parse := parse;
    }

    /** `processChunk`: appends the read and processes every complete line until `[DONE]`. */
    method ProcessChunk(text: string)
      modifies this
      ensures var d := Drain(old(buffer) + text, LineStep(parse));
              events == old(events) + d.events && buffer == d.rest
    {
      var fired, rest := DrainBuffer(buffer + text, parse);
      events := events + fired;
      buffer := rest;
    }

    /** `flush`: the leftover buffer, if it is a JSON object; the buffer itself is kept. */
    method Flush()
      modifies this
      ensures events == old(events) + FlushEvents(old(buffer), parse)
      ensures buffer == old(buffer)
    {
      var jsonData := Trim(buffer);
      if jsonData != "" {
        if StartsWith(jsonData, "{") {
          match parse(jsonData) {
            case Some(chunk) =>
              events := events + [Chunk(chunk)];
            case None =>
              events := events + [Failure("Failed to parse remaining data: " + buffer)];
          }
        }
      }
    }
  }
}
