/**
 * The chat store: one store cell holding the message list and the chat's
 * flags. Every action replaces the cell's value by a function of the old one;
 * the transitions are stated as functions and the cell as a class.
 *
 * `Date.now()` and the random id suffix are parameters.
 */
module ChatStore {
  import opened Wrappers
  import opened Text
  import DerivedStore

  datatype Role = User | Assistant
  datatype Status = Sending | Sent | Failed
  datatype Metadata = Metadata(provider: Option<string>, model: Option<string>, tokens: Option<int>)

  datatype Message = Message(id: string, content: string, role: Role, timestamp: int,
                             status: Option<Status>, metadata: Option<Metadata>)

  /** `Omit<Message, 'id' | 'timestamp'>`: what a caller adds. */
  datatype Draft = Draft(content: string, role: Role, status: Option<Status>, metadata: Option<Metadata>)

  /** `Partial<Message>`: the fields an update sets; `None` leaves a field as it is. */
  datatype Patch = Patch(id: Option<string>, content: Option<string>, role: Option<Role>, timestamp: Option<int>,
                         status: Option<Status>, metadata: Option<Metadata>)

  datatype ChatState = ChatState(messages: seq<Message>, streaming: bool, loading: bool,
                                 error: Option<string>, currentSessionId: Option<string>)

  const InitialState: ChatState := ChatState([], false, false, None, None)

  /** `msg_${Date.now()}_${suffix}` */
  function MessageId(now: int, suffix: string): string {
    "msg_" + IntToString(now) + "_" + suffix
  }

  /** `{ ...msg, ...updates }`: every field the patch sets wins. */
  function Merge(m: Message, p: Patch): (r: Message)
    ensures r.id == (if p.id.Some? then p.id.value else m.id)
    ensures r.content == (if p.content.Some? then p.content.value else m.content)
    ensures r.role == (if p.role.Some? then p.role.value else m.role)
    ensures r.timestamp == (if p.timestamp.Some? then p.timestamp.value else m.timestamp)
    ensures r.status == (if p.status.Some? then p.status else m.status)
    ensures r.metadata == (if p.metadata.Some? then p.metadata else m.metadata)
    ensures p == Patch(None, None, None, None, None, None) ==> r == m
  {
    Message(p.id.GetOr(m.id), p.content.GetOr(m.content), p.role.GetOr(m.role), p.timestamp.GetOr(m.timestamp),
            if p.status.Some? then p.status else m.status, if p.metadata.Some? then p.metadata else m.metadata)
  }

  // ---------------------------------------------------------------------------
  // Transitions
  // ---------------------------------------------------------------------------

  /** `addMessage`: exactly one message appended, carrying the id and time; nothing else changes. */
  function Added(s: ChatState, draft: Draft, id: string, timestamp: int): (r: ChatState)
    ensures |r.messages| == |s.messages| + 1 && r.messages[..|s.messages|] == s.messages
    ensures r.messages[|s.messages|] == Message(id, draft.content, draft.role, timestamp, draft.status, draft.metadata)
    ensures r.(messages := s.messages) == s
  {
    s.(messages := s.messages + [Message(id, draft.content, draft.role, timestamp, draft.status, draft.metadata)])
  }

  /** `updateMessage`: every message with the id merged with the patch, the others and the order kept. */
  function Updated(s: ChatState, id: string, p: Patch): (r: ChatState)
    ensures |r.messages| == |s.messages|
    ensures forall k :: 0 <= k < |s.messages| ==>
              r.messages[k] == (if s.messages[k].id == id then Merge(s.messages[k], p) else s.messages[k])
    ensures r.(messages := s.messages) == s
  {
    s.(messages := seq(|s.messages|, k requires 0 <= k < |s.messages| =>
                         if s.messages[k].id == id then Merge(s.messages[k], p) else s.messages[k]))
  }

  /** The messages whose id differs from `id`, in their order. */
  function KeepOthers(messages: seq<Message>, id: string): (r: seq<Message>)
    ensures forall m :: m in r <==> m in messages && m.id != id
    ensures |r| <= |messages|
    ensures |messages| == 1 ==> r == (if messages[0].id != id then messages else [])
    decreases |messages|
  {
    if |messages| == 0 then []
    else
      var rest := KeepOthers(messages[1..], id);
      assert forall m :: m in messages <==> m == messages[0] || m in messages[1..];
      if messages[0].id == id then rest else [messages[0]] + rest
  }

  /** Removal keeps the order: removing from a concatenation removes from each part. */
  lemma {:induction false} KeepOthersAppend(a: seq<Message>, b: seq<Message>, id: string)
    ensures KeepOthers(a + b, id) == KeepOthers(a, id) + KeepOthers(b, id)
    decreases |a|
  {
    if |a| == 0 {
      assert a + b == b;
    } else {
      assert (a + b)[0] == a[0] && (a + b)[1..] == a[1..] + b;
      KeepOthersAppend(a[1..], b, id);
    }
  }

  /** Cutting the list anywhere: what came before the cut stays before what came after it. */
  lemma KeepOthersSplit(messages: seq<Message>, id: string)
    ensures forall k :: 0 <= k <= |messages| ==>
              KeepOthers(messages, id) == KeepOthers(messages[..k], id) + KeepOthers(messages[k..], id)
  {
    forall k | 0 <= k <= |messages|
      ensures KeepOthers(messages, id) == KeepOthers(messages[..k], id) + KeepOthers(messages[k..], id)
    {
      assert messages == messages[..k] + messages[k..];
      KeepOthersAppend(messages[..k], messages[k..], id);
    }
  }

  /** Removing an id that no message has keeps the list. */
  lemma {:induction false} KeepOthersAbsent(messages: seq<Message>, id: string)
    ensures (forall k :: 0 <= k < |messages| ==> messages[k].id != id) ==> KeepOthers(messages, id) == messages
    decreases |messages|
  {
    if |messages| > 0 {
      KeepOthersAbsent(messages[1..], id);
    }
  }

  /** `removeMessage`: all messages with the id gone, the others kept in order; nothing else changes. */
  function Removed(s: ChatState, id: string): (r: ChatState)
    ensures forall m :: m in r.messages <==> m in s.messages && m.id != id
    ensures forall k :: 0 <= k <= |s.messages| ==>
              r.messages == KeepOthers(s.messages[..k], id) + KeepOthers(s.messages[k..], id)
    ensures (forall k :: 0 <= k < |s.messages| ==> s.messages[k].id != id) ==> r == s
    ensures r.(messages := s.messages) == s
  {
    KeepOthersAbsent(s.messages, id);
    KeepOthersSplit(s.messages, id);
    s.(messages := KeepOthers(s.messages, id))
  }

  /** Removing twice is removing once. */
  lemma RemoveIdempotent(s: ChatState, id: string)
    ensures Removed(Removed(s, id), id) == Removed(s, id)
  {
    var r := Removed(s, id);
    forall k | 0 <= k < |r.messages| ensures r.messages[k].id != id {
      assert r.messages[k] in r.messages;
    }
  }

  /** Removing after adding a message with a fresh id gives back the original list. */
  lemma RemoveUndoesAdd(s: ChatState, draft: Draft, id: string, timestamp: int)
    requires forall k :: 0 <= k < |s.messages| ==> s.messages[k].id != id
    ensures Removed(Added(s, draft, id, timestamp), id) == s
  {
    var a := Added(s, draft, id, timestamp);
    KeepOthersAbsent(s.messages, id);
    assert a.messages == s.messages + [a.messages[|s.messages|]];
    KeepOthersAppend(s.messages, [a.messages[|s.messages|]], id);
  }

  // ---------------------------------------------------------------------------
  // Derived views
  // ---------------------------------------------------------------------------

  /** `isEmpty` */
  predicate IsEmpty(s: ChatState)
    ensures IsEmpty(s) <==> LastMessage(s).None?
    ensures IsEmpty(s) ==> MessagesByRole(s) == ([], [])
  {
    |s.messages| == 0
  }

  /** `lastMessage`: the last message, or `null` for an empty list. */
  function LastMessage(s: ChatState): (r: Option<Message>)
    ensures r.None? <==> |s.messages| == 0
    ensures r.Some? ==> r.value == s.messages[|s.messages| - 1]
  {
    if |s.messages| == 0 then None else Some(s.messages[|s.messages| - 1])
  }

  /** The messages with the given role, in their order. */
  function WithRole(messages: seq<Message>, role: Role): (r: seq<Message>)
    ensures forall m :: m in r <==> m in messages && m.role == role
    ensures |messages| == 1 ==> r == (if messages[0].role == role then messages else [])
    decreases |messages|
  {
    if |messages| == 0 then []
    else
      var rest := WithRole(messages[1..], role);
      assert forall m :: m in messages <==> m == messages[0] || m in messages[1..];
      if messages[0].role == role then [messages[0]] + rest else rest
  }

  /** Selecting by role keeps the order: selecting from a concatenation selects from each part. */
  lemma {:induction false} WithRoleAppend(a: seq<Message>, b: seq<Message>, role: Role)
    ensures WithRole(a + b, role) == WithRole(a, role) + WithRole(b, role)
    decreases |a|
  {
    if |a| == 0 {
      assert a + b == b;
    } else {
      assert (a + b)[0] == a[0] && (a + b)[1..] == a[1..] + b;
      WithRoleAppend(a[1..], b, role);
    }
  }

  /** Every message is in exactly one of the two role lists. */
  lemma {:induction false} RolesPartition(messages: seq<Message>)
    ensures |WithRole(messages, User)| + |WithRole(messages, Assistant)| == |messages|
    decreases |messages|
  {
    if |messages| > 0 {
      RolesPartition(messages[1..]);
    }
  }

  /** `messagesByRole`: the user messages and the assistant messages. */
  function MessagesByRole(s: ChatState): (r: (seq<Message>, seq<Message>))
    ensures forall m :: m in r.0 <==> m in s.messages && m.role == User
    ensures forall m :: m in r.1 <==> m in s.messages && m.role == Assistant
    ensures |r.0| + |r.1| == |s.messages|
  {
    RolesPartition(s.messages);
    (WithRole(s.messages, User), WithRole(s.messages, Assistant))
  }

  /**
   * As written, the views are built by `derived(subscribe, …)`: each is handed
   * the writable's bare `subscribe` function, and subscribing to it throws.
   */
  lemma ViewsThrowAsWritten(s: ChatState)
    ensures DerivedStore.FirstValue(DerivedStore.BareSubscribe(s), IsEmpty) == DerivedStore.Throws(DerivedStore.NotAStore)
    ensures DerivedStore.FirstValue(DerivedStore.BareSubscribe(s), LastMessage) == DerivedStore.Throws(DerivedStore.NotAStore)
    ensures DerivedStore.FirstValue(DerivedStore.BareSubscribe(s), MessagesByRole) == DerivedStore.Throws(DerivedStore.NotAStore)
  {
  }

  /**
   * As intended, `derived({ subscribe }, …)`: the views show whether there are
   * messages, the last one, and the user and assistant messages.
   */
  lemma ViewsAsIntended(s: ChatState)
    ensures DerivedStore.FirstValue(DerivedStore.Store(s), IsEmpty) == DerivedStore.Value(|s.messages| == 0)
    ensures var last := DerivedStore.FirstValue(DerivedStore.Store(s), LastMessage);
      last.Value? && (last.value.None? <==> |s.messages| == 0)
      && (|s.messages| > 0 ==> last.value == Some(s.messages[|s.messages| - 1]))
    ensures var byRole := DerivedStore.FirstValue(DerivedStore.Store(s), MessagesByRole);
      byRole.Value? && |byRole.value.0| + |byRole.value.1| == |s.messages|
      && (forall m :: m in byRole.value.0 <==> m in s.messages && m.role == User)
      && (forall m :: m in byRole.value.1 <==> m in s.messages && m.role == Assistant)
  {
  }

  // ---------------------------------------------------------------------------
  // The store cell
  // ---------------------------------------------------------------------------

  class ChatStoreCell {
    var state: ChatState

    constructor()
      ensures state == InitialState
    {
      state := InitialState;
    }

    /** `idTime` and `now` are the two clock reads: the id's and the time stamp's. */
    method AddMessage(draft: Draft, idTime: int, now: int, suffix: string) returns (id: string)
      modifies this
      ensures id == MessageId(idTime, suffix)
      ensures state == Added(old(state), draft, id, now)
    {
      id := MessageId(idTime, suffix);
      state := Added(state, draft, id, now);
    }

    method UpdateMessage(id: string, p: Patch)
      modifies this
      ensures state == Updated(old(state), id, p)
    {
      state := Updated(state, id, p);
    }

    method RemoveMessage(id: string)
      modifies this
      ensures state == Removed(old(state), id)
    {
      state := Removed(state, id);
    }

    method SetStreaming(isStreaming: bool)
      modifies this
      ensures state == old(state).(streaming := isStreaming)
    {
      state := state.(streaming := isStreaming);
    }

    method SetLoading(isLoading: bool)
      modifies this
      ensures state == old(state).(loading := isLoading)
    {
      state := state.(loading := isLoading);
    }

    method SetError(error: Option<string>)
      modifies this
      ensures state == old(state).(error := error)
    {
      state := state.(error := error);
    }

    method ClearMessages()
      modifies this
      ensures state == old(state).(messages := [])
    {
      state := state.(messages := []);
    }

    method SetCurrentSessionId(sessionId: Option<string>)
      modifies this
      ensures state == old(state).(currentSessionId := sessionId)
    {
      state := state.(currentSessionId := sessionId);
    }

    method Reset()
      modifies this
      ensures state == InitialState
    {
      state := InitialState;
    }
  }
}
