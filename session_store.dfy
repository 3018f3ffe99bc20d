/**
 * The session store: the list of chat sessions and the current one. Actions
 * that change the list also write it to browser storage; the last list
 * written is kept as ghost state.
 *
 * `Date.now()`, its locale rendering and the random id suffix are parameters.
 */
module SessionStore {
  import opened Wrappers
  import opened Text
  import DerivedStore

  datatype Session = Session(id: string, title: string, createdAt: int, updatedAt: int, messageCount: int,
                             providerId: Option<string>, modelId: Option<string>)

  /** `Partial<Session>`: the fields an update sets. */
  datatype SessionPatch = SessionPatch(id: Option<string>, title: Option<string>, createdAt: Option<int>,
                                       updatedAt: Option<int>, messageCount: Option<int>,
                                       providerId: Option<string>, modelId: Option<string>)

  datatype SessionState = SessionState(sessions: seq<Session>, currentSessionId: Option<string>,
                                       loading: bool, error: Option<string>)

  const InitialState: SessionState := SessionState([], None, false, None)

  /** `session_${Date.now()}_${suffix}` */
  function SessionId(now: int, suffix: string): string {
    "session_" + IntToString(now) + "_" + suffix
  }

  /** The session `createSession` builds: the title, or `Session <time>` when it is missing or empty. */
  function NewSession(id: string, title: Option<string>, now: int, nowText: string): (r: Session)
    ensures r.id == id && r.messageCount == 0 && r.createdAt == r.updatedAt == now
    ensures r.title == (if title.Some? && title.value != "" then title.value else "Session " + nowText)
  {
    Session(id, if title.Some? && title.value != "" then title.value else "Session " + nowText, now, now, 0, None, None)
  }

  /** Applies `f` to the sessions with the id, keeping the others and the order. */
  function MapMatching(sessions: seq<Session>, id: string, f: Session -> Session): (r: seq<Session>)
    ensures |r| == |sessions|
    ensures forall k :: 0 <= k < |sessions| ==> r[k] == (if sessions[k].id == id then f(sessions[k]) else sessions[k])
  {
    seq(|sessions|, k requires 0 <= k < |sessions| => if sessions[k].id == id then f(sessions[k]) else sessions[k])
  }

  /** `{ ...session, ...updates, updatedAt: now }` */
  function Patched(s: Session, p: SessionPatch, now: int): (r: Session)
    ensures r.updatedAt == now
    ensures r.title == p.title.GetOr(s.title) && r.messageCount == p.messageCount.GetOr(s.messageCount)
    ensures r.id == p.id.GetOr(s.id) && r.createdAt == p.createdAt.GetOr(s.createdAt)
    ensures r.providerId == (if p.providerId.Some? then p.providerId else s.providerId)
    ensures r.modelId == (if p.modelId.Some? then p.modelId else s.modelId)
  {
    Session(p.id.GetOr(s.id), p.title.GetOr(s.title), p.createdAt.GetOr(s.createdAt), now,
            p.messageCount.GetOr(s.messageCount),
            if p.providerId.Some? then p.providerId else s.providerId,
            if p.modelId.Some? then p.modelId else s.modelId)
  }

  /** The sessions whose id differs from `id`, in their order. */
  function OtherSessions(sessions: seq<Session>, id: string): (r: seq<Session>)
    ensures forall x :: x in r <==> x in sessions && x.id != id
    ensures |r| <= |sessions|
    ensures (forall k :: 0 <= k < |sessions| ==> sessions[k].id != id) ==> r == sessions
    ensures |sessions| == 1 ==> r == (if sessions[0].id != id then sessions else [])
    decreases |sessions|
  {
    if |sessions| == 0 then []
    else
      var rest := OtherSessions(sessions[1..], id);
      assert forall x :: x in sessions <==> x == sessions[0] || x in sessions[1..];
      assert (forall k :: 0 <= k < |sessions| ==> sessions[k].id != id) ==>
               forall k :: 0 <= k < |sessions[1..]| ==> sessions[1..][k].id != id;
      if sessions[0].id == id then rest else [sessions[0]] + rest
  }

  /** Deleting keeps the order: deleting from a concatenation deletes from each part. */
  lemma {:induction false} OtherSessionsAppend(a: seq<Session>, b: seq<Session>, id: string)
    ensures OtherSessions(a + b, id) == OtherSessions(a, id) + OtherSessions(b, id)
    decreases |a|
  {
    if |a| == 0 {
      assert a + b == b;
    } else {
      assert (a + b)[0] == a[0] && (a + b)[1..] == a[1..] + b;
      OtherSessionsAppend(a[1..], b, id);
    }
  }

  /** The first session kept is the first one whose id differs. */
  lemma {:induction false} OtherSessionsFirst(sessions: seq<Session>, id: string)
    ensures forall i :: (0 <= i < |sessions| && sessions[i].id != id && (forall j :: 0 <= j < i ==> sessions[j].id == id)) ==>
              |OtherSessions(sessions, id)| > 0 && OtherSessions(sessions, id)[0] == sessions[i]
    decreases |sessions|
  {
    if |sessions| > 0 && sessions[0].id == id {
      OtherSessionsFirst(sessions[1..], id);
      forall i | 0 <= i < |sessions| && sessions[i].id != id && (forall j :: 0 <= j < i ==> sessions[j].id == id)
        ensures |OtherSessions(sessions, id)| > 0 && OtherSessions(sessions, id)[0] == sessions[i]
      {
        assert i > 0;
        forall j | 0 <= j < i - 1 ensures sessions[1..][j].id == id {
          assert sessions[1..][j] == sessions[j + 1];
        }
        assert sessions[1..][i - 1] == sessions[i];
      }
    }
  }

  /** Cutting the list anywhere: what came before the cut stays before what came after it. */
  lemma OtherSessionsSplit(sessions: seq<Session>, id: string)
    ensures forall k :: 0 <= k <= |sessions| ==>
              OtherSessions(sessions, id) == OtherSessions(sessions[..k], id) + OtherSessions(sessions[k..], id)
  {
    forall k | 0 <= k <= |sessions|
      ensures OtherSessions(sessions, id) == OtherSessions(sessions[..k], id) + OtherSessions(sessions[k..], id)
    {
      assert sessions == sessions[..k] + sessions[k..];
      OtherSessionsAppend(sessions[..k], sessions[k..], id);
    }
  }

  // ---------------------------------------------------------------------------
  // Transitions
  // ---------------------------------------------------------------------------

  /** `createSession`: one session appended and made current. */
  function Created(s: SessionState, session: Session): (r: SessionState)
    ensures r.sessions == s.sessions + [session]
    ensures r.currentSessionId == Some(session.id)
    ensures r.loading == s.loading && r.error == s.error
  {
    s.(sessions := s.sessions + [session], currentSessionId := Some(session.id))
  }

  /** `updateSession`: the matching sessions merged and re-stamped, the others unchanged. */
  function SessionUpdated(s: SessionState, id: string, p: SessionPatch, now: int): (r: SessionState)
    ensures |r.sessions| == |s.sessions|
    ensures forall k :: 0 <= k < |s.sessions| && s.sessions[k].id == id ==>
              r.sessions[k] == Patched(s.sessions[k], p, now) && r.sessions[k].updatedAt == now
    ensures forall k :: 0 <= k < |s.sessions| && s.sessions[k].id != id ==> r.sessions[k] == s.sessions[k]
    ensures r.(sessions := s.sessions) == s
  {
    s.(sessions := MapMatching(s.sessions, id, x => Patched(x, p, now)))
  }

  /** The current id after deleting `id`: the first remaining session if the current one was deleted. */
  function CurrentAfterDelete(current: Option<string>, id: string, remaining: seq<Session>): (r: Option<string>)
    ensures current != Some(id) ==> r == current
    ensures current == Some(id) && |remaining| > 0 ==> r == Some(remaining[0].id)
    ensures current == Some(id) && |remaining| == 0 ==> r.None?
  {
    if current == Some(id) then (if |remaining| > 0 then Some(remaining[0].id) else None) else current
  }

  /** `deleteSession`: the matching sessions gone and the current id moved off them. */
  function Deleted(s: SessionState, id: string): (r: SessionState)
    ensures forall x :: x in r.sessions <==> x in s.sessions && x.id != id
    ensures forall k :: 0 <= k <= |s.sessions| ==>
              r.sessions == OtherSessions(s.sessions[..k], id) + OtherSessions(s.sessions[k..], id)
    ensures r.currentSessionId != Some(id)
    ensures s.currentSessionId != Some(id) ==> r.currentSessionId == s.currentSessionId
    ensures s.currentSessionId == Some(id) ==>
              forall i :: 0 <= i < |s.sessions| && s.sessions[i].id != id && (forall j :: 0 <= j < i ==> s.sessions[j].id == id) ==>
                r.currentSessionId == Some(s.sessions[i].id)
    ensures r.loading == s.loading && r.error == s.error
  {
    OtherSessionsSplit(s.sessions, id);
    OtherSessionsFirst(s.sessions, id);
    var remaining := OtherSessions(s.sessions, id);
    assert |remaining| > 0 ==> remaining[0] in remaining && remaining[0].id != id;
    var current := CurrentAfterDelete(s.currentSessionId, id, remaining);
    s.(sessions := remaining, currentSessionId := current)
  }

  /** `incrementMessageCount`: the matching sessions count one more message and are re-stamped. */
  function Incremented(s: SessionState, id: string, now: int): (r: SessionState)
    ensures |r.sessions| == |s.sessions|
    ensures forall k :: 0 <= k < |s.sessions| && s.sessions[k].id == id ==>
              r.sessions[k] == s.sessions[k].(messageCount := s.sessions[k].messageCount + 1, updatedAt := now)
    ensures forall k :: 0 <= k < |s.sessions| && s.sessions[k].id != id ==> r.sessions[k] == s.sessions[k]
    ensures r.(sessions := s.sessions) == s
  {
    s.(sessions := MapMatching(s.sessions, id, (x: Session) => x.(messageCount := x.messageCount + 1, updatedAt := now)))
  }

  /** The first session with the id, as `find` returns it. */
  function Find(sessions: seq<Session>, id: Option<string>): (r: Option<Session>)
    ensures r.Some? ==> r.value in sessions && Some(r.value.id) == id
    ensures r.None? ==> forall k :: 0 <= k < |sessions| ==> Some(sessions[k].id) != id
    ensures forall i :: (0 <= i < |sessions| && Some(sessions[i].id) == id &&
                         (forall j :: 0 <= j < i ==> Some(sessions[j].id) != id)) ==> r == Some(sessions[i])
    decreases |sessions|
  {
    if |sessions| == 0 then None
    else if Some(sessions[0].id) == id then Some(sessions[0])
    else
      var rest := Find(sessions[1..], id);
      assert forall k :: 1 <= k < |sessions| ==> sessions[k] == sessions[1..][k - 1];
      rest
  }

  /** `find` returns the session at the first index holding the id. */
  lemma {:induction false} FindFirst(sessions: seq<Session>, id: Option<string>, k: nat)
    requires k < |sessions| && Some(sessions[k].id) == id
    requires forall j :: 0 <= j < k ==> Some(sessions[j].id) != id
    ensures Find(sessions, id) == Some(sessions[k])
    decreases k
  {
    if k > 0 {
      FindFirst(sessions[1..], id, k - 1);
    }
  }

  /** `currentSession`: the first session whose id is the current id, or `null`. */
  function CurrentSession(s: SessionState): (r: Option<Session>)
    ensures r.None? <==> forall k :: 0 <= k < |s.sessions| ==> Some(s.sessions[k].id) != s.currentSessionId
    ensures forall i :: (0 <= i < |s.sessions| && Some(s.sessions[i].id) == s.currentSessionId &&
                         (forall j :: 0 <= j < i ==> Some(s.sessions[j].id) != s.currentSessionId)) ==> r == Some(s.sessions[i])
  {
    Find(s.sessions, s.currentSessionId)
  }

  /** `isEmpty`: no sessions, and then no current session either. */
  predicate IsEmpty(s: SessionState)
    ensures IsEmpty(s) ==> CurrentSession(s).None?
  {
    |s.sessions| == 0
  }

  /**
   * As written, `currentSession` and `isEmpty` are built by
   * `derived(subscribe, …)`, and subscribing to either throws.
   */
  lemma ViewsThrowAsWritten(s: SessionState)
    ensures DerivedStore.FirstValue(DerivedStore.BareSubscribe(s), CurrentSession) == DerivedStore.Throws(DerivedStore.NotAStore)
    ensures DerivedStore.FirstValue(DerivedStore.BareSubscribe(s), IsEmpty) == DerivedStore.Throws(DerivedStore.NotAStore)
  {
  }

  /**
   * As intended, `derived({ subscribe }, …)`: the views show the session with
   * the current id, if any, and whether there are sessions.
   */
  lemma ViewsAsIntended(s: SessionState)
    ensures var current := DerivedStore.FirstValue(DerivedStore.Store(s), CurrentSession);
      current.Value? && (current.value.Some? ==> current.value.value in s.sessions && Some(current.value.value.id) == s.currentSessionId)
      && (current.value.None? <==> forall k :: 0 <= k < |s.sessions| ==> Some(s.sessions[k].id) != s.currentSessionId)
    ensures DerivedStore.FirstValue(DerivedStore.Store(s), IsEmpty) == DerivedStore.Value(|s.sessions| == 0)
  {
  }

  /** Creating a session makes it the current session whenever its id is fresh. */
  lemma CreatedIsCurrent(s: SessionState, session: Session)
    requires forall k :: 0 <= k < |s.sessions| ==> s.sessions[k].id != session.id
    ensures CurrentSession(Created(s, session)) == Some(session)
    ensures !IsEmpty(Created(s, session))
  {
    var r := Created(s, session);
    assert r.sessions[|s.sessions|] == session;
    FindFirst(r.sessions, Some(session.id), |s.sessions|);
  }

  /** After deleting the current session, the current session is the first remaining one, if any. */
  lemma DeleteCurrentMovesToFirst(s: SessionState, id: string)
    requires s.currentSessionId == Some(id)
    ensures var r := Deleted(s, id);
            (|r.sessions| > 0 ==> CurrentSession(r) == Some(r.sessions[0]))
            && (|r.sessions| == 0 ==> CurrentSession(r).None?)
  {
    var r := Deleted(s, id);
    if |r.sessions| > 0 {
      FindFirst(r.sessions, r.currentSessionId, 0);
    }
  }

  // ---------------------------------------------------------------------------
  // The store cell
  // ---------------------------------------------------------------------------

  class SessionStoreCell {
    var state: SessionState
    /** The list last written to storage; `None` once the key is removed. */
    ghost var stored: Option<seq<Session>>

    /** A cell in a well-formed state (the load-and-merge start is not modelled). */
    constructor(start: SessionState)
      ensures state == start && stored.None?
    {
      state := start;
      stored := None;
    }

    method CreateSession(title: Option<string>, idTime: int, now: int, nowText: string, suffix: string) returns (id: string)
      modifies this
      ensures id == SessionId(idTime, suffix)
      ensures state == Created(old(state), NewSession(id, title, now, nowText))
      ensures stored == Some(state.sessions)
    {
      id := SessionId(idTime, suffix);
      var session := NewSession(id, title, now, nowText);
      state := Created(state, session);
      stored := Some(state.sessions);
    }

    /** `switchSession`: no check that the id exists; no storage write. */
    method SwitchSession(sessionId: string)
      modifies this
      ensures state == old(state).(currentSessionId := Some(sessionId))
      ensures stored == old(stored)
    {
      state := state.(currentSessionId := Some(sessionId));
    }

    method UpdateSession(sessionId: string, p: SessionPatch, now: int)
      modifies this
      ensures state == SessionUpdated(old(state), sessionId, p, now)
      ensures stored == Some(state.sessions)
    {
      state := SessionUpdated(state, sessionId, p, now);
      stored := Some(state.sessions);
    }

    method DeleteSession(sessionId: string)
      modifies this
      ensures state == Deleted(old(state), sessionId)
      ensures stored == Some(state.sessions)
    {
      state := Deleted(state, sessionId);
      stored := Some(state.sessions);
    }

    /** `clearSessions`: the storage key removed and the initial state restored. */
    method ClearSessions()
      modifies this
      ensures state == InitialState && stored.None?
    {
      stored := None;
      state := InitialState;
    }

    method IncrementMessageCount(sessionId: string, now: int)
      modifies this
      ensures state == Incremented(old(state), sessionId, now)
      ensures stored == Some(state.sessions)
    {
      state := Incremented(state, sessionId, now);
      stored := Some(state.sessions);
    }

    method SetLoading(isLoading: bool)
      modifies this
      ensures state == old(state).(loading := isLoading) && stored == old(stored)
    {
      state := state.(loading := isLoading);
    }

    method SetError(error: Option<string>)
      modifies this
      ensures state == old(state).(error := error) && stored == old(stored)
    {
      state := state.(error := error);
    }
  }
}
