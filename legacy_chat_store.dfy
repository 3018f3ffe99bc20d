/**
 * The chat store of the legacy client: a list of messages and a loading flag.
 * Streamed answers grow by `updateMessage`, which appends a chunk to every
 * message with the given id. The clock and the random id suffix are
 * parameters.
 */
module LegacyChatStore {
  import opened Wrappers
  import opened Text

  datatype Role = User | Assistant | System

  datatype ChatMessage = ChatMessage(id: string, role: Role, content: string, timestamp: Option<int>)

  datatype ChatState = ChatState(messages: seq<ChatMessage>, isLoading: bool)

  const InitialState: ChatState := ChatState([], false)

  /** `msg-${Date.now()}-${suffix}`, where the suffix is nine base-36 digits of a random number. */
  function MessageId(now: int, suffix: string): (r: string)
    ensures StartsWith(r, "msg-")
    ensures r[4..] == IntToString(now) + "-" + suffix
  {
    "msg-" + IntToString(now) + "-" + suffix
  }

  /** `addMessage`: the message appended with its id and time stamp. */
  function Added(s: ChatState, role: Role, content: string, id: string, timestamp: int): (r: ChatState)
    ensures |r.messages| == |s.messages| + 1 && r.messages[..|s.messages|] == s.messages
    ensures r.messages[|s.messages|] == ChatMessage(id, role, content, Some(timestamp))
    ensures r.isLoading == s.isLoading
  {
    s.(messages := s.messages + [ChatMessage(id, role, content, Some(timestamp))])
  }

  /** `updateMessage`: `chunk` appended to the content of every message whose id is `id`. */
  function ContentAppended(s: ChatState, id: string, chunk: string): (r: ChatState)
    ensures |r.messages| == |s.messages| && r.isLoading == s.isLoading
    ensures forall k :: 0 <= k < |s.messages| && s.messages[k].id == id ==>
              r.messages[k] == s.messages[k].(content := s.messages[k].content + chunk)
    ensures forall k :: 0 <= k < |s.messages| && s.messages[k].id != id ==> r.messages[k] == s.messages[k]
  {
    s.(messages := seq(|s.messages|, k requires 0 <= k < |s.messages| =>
         if s.messages[k].id == id then s.messages[k].(content := s.messages[k].content + chunk)
         else s.messages[k]))
  }

  /** An update for an id no message has changes nothing. */
  lemma UnknownIdUnchanged(s: ChatState, id: string, chunk: string)
    requires forall k :: 0 <= k < |s.messages| ==> s.messages[k].id != id
    ensures ContentAppended(s, id, chunk) == s
  {
    assert ContentAppended(s, id, chunk).messages == s.messages;
  }

  /** The state after a stream's chunks are appended one `updateMessage` at a time, in order. */
  function Streamed(s: ChatState, id: string, chunks: seq<string>): ChatState
    decreases |chunks|
  {
    if |chunks| == 0 then s else ContentAppended(Streamed(s, id, chunks[..|chunks| - 1]), id, chunks[|chunks| - 1])
  }

  /**
   * Streaming chunk by chunk leaves the message with the original content
   * followed by the whole streamed text, and every other message as it was.
   */
  lemma {:induction false} StreamedContent(s: ChatState, id: string, chunks: seq<string>)
    ensures |Streamed(s, id, chunks).messages| == |s.messages|
    ensures Streamed(s, id, chunks).isLoading == s.isLoading
    ensures forall k :: 0 <= k < |s.messages| && s.messages[k].id == id ==>
              Streamed(s, id, chunks).messages[k] == s.messages[k].(content := s.messages[k].content + Concat(chunks))
    ensures forall k :: 0 <= k < |s.messages| && s.messages[k].id != id ==>
              Streamed(s, id, chunks).messages[k] == s.messages[k]
    decreases |chunks|
  {
    if |chunks| > 0 {
      var n := |chunks| - 1;
      StreamedContent(s, id, chunks[..n]);
      var before := Streamed(s, id, chunks[..n]);
      forall k | 0 <= k < |s.messages| && s.messages[k].id == id
        ensures Streamed(s, id, chunks).messages[k] == s.messages[k].(content := s.messages[k].content + Concat(chunks))
      {
        assert before.messages[k].id == id;
        assert s.messages[k].content + Concat(chunks[..n]) + chunks[n] == s.messages[k].content + Concat(chunks);
      }
    }
  }

  /** `clearMessages`: the messages dropped, the loading flag kept. */
  function Cleared(s: ChatState): (r: ChatState)
    ensures r.messages == [] && r.isLoading == s.isLoading
  {
    s.(messages := [])
  }

  /** `messageCount`. */
  function MessageCount(s: ChatState): (r: nat)
    ensures r == 0 <==> s.messages == []
  {
    |s.messages|
  }

  /** Adding a message counts one more; clearing counts none. */
  lemma CountAfterAddAndClear(s: ChatState, role: Role, content: string, id: string, timestamp: int)
    ensures MessageCount(Added(s, role, content, id, timestamp)) == MessageCount(s) + 1
    ensures MessageCount(Cleared(s)) == 0
  {
  }

  class LegacyChatStoreCell {
    var state: ChatState

    constructor()
      ensures state == InitialState
    {
      state := InitialState;
    }

    /**
     * `addMessage`: the clock is read twice, once for the id (`idTime`) and
     * once for the time stamp (`now`); the new id is returned.
     */
    method AddMessage(role: Role, content: string, idTime: int, suffix: string, now: int) returns (id: string)
      modifies this
      ensures id == MessageId(idTime, suffix)
      ensures state == Added(old(state), role, content, id, now)
    {
      id := MessageId(idTime, suffix);
      state := Added(state, role, content, id, now);
    }

    method UpdateMessage(id: string, chunk: string)
      modifies this
      ensures state == ContentAppended(old(state), id, chunk)
    {
      state := ContentAppended(state, id, chunk);
    }

    method ClearMessages()
      modifies this
      ensures state == Cleared(old(state))
    {
      state := Cleared(state);
    }

    method SetLoading(isLoading: bool)
      modifies this
      ensures state == old(state).(isLoading := isLoading)
    {
      state := state.(isLoading := isLoading);
    }
  }
}
