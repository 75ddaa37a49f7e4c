/**
 * The `chat` slice of the Redux store: the session id handed out by the
 * backend and the transcript, newest question first. The reducer is the
 * pure function `Reduce`; `ChatStore` is the same slice as mutable state,
 * together with the single browser-storage slot that `resetChat` clears.
 */
module ChatSlice {
  import opened Wrappers

  /** One question and the answer the backend gave to it. */
  datatype Message = Message(question: string, answer: string)

  /** The slice's state. There is no secret-code field. */
  datatype ChatState = ChatState(sessionId: Option<string>, messages: seq<Message>)

  /** `initialState`: no session, empty transcript. */
  const Initial: ChatState := ChatState(None, [])

  /** The three action creators the slice exports. */
  datatype Action =
    | SetSessionId(id: Option<string>)
    | AddMessage(message: Message)
    | ResetChat

  /**
   * The slice reducer (its storage side effect lives in `ChatStore.ResetChat`):
   * `setSessionId` replaces only the id, `addMessage` puts the message at
   * index 0 above the old transcript, `resetChat` gives `initialState`.
   */
  function Reduce(s: ChatState, a: Action): (r: ChatState)
    ensures a.SetSessionId? ==> r.sessionId == a.id && r.messages == s.messages
    ensures a.AddMessage? ==>
              r.sessionId == s.sessionId && |r.messages| == |s.messages| + 1
              && r.messages[0] == a.message && r.messages[1..] == s.messages
    ensures a.ResetChat? ==> r.sessionId == None && r.messages == []
  {
    match a
    case SetSessionId(id) => s.(sessionId := id)
    case AddMessage(m) => s.(messages := [m] + s.messages)
    case ResetChat => Initial
  }

  /** No `resetChat` among the actions. */
  predicate NoReset(actions: seq<Action>) {
    forall i :: 0 <= i < |actions| ==> !actions[i].ResetChat?
  }

  /**
   * Dispatching a sequence of actions, first to last. Each action adds at
   * most one message, and without a reset the transcript never shrinks.
   */
  function Run(s: ChatState, actions: seq<Action>): (r: ChatState)
    ensures |r.messages| <= |s.messages| + |actions|
    ensures NoReset(actions) ==> |s.messages| <= |r.messages|
    decreases |actions|
  {
    if actions == [] then s else Run(Reduce(s, actions[0]), actions[1..])
  }

  /** Without a reset, the old transcript stays, unchanged, at the bottom of the new one. */
  lemma {:induction false} RunKeepsOldTranscript(s: ChatState, actions: seq<Action>)
    requires NoReset(actions)
    ensures var r := Run(s, actions);
            |s.messages| <= |r.messages| && r.messages[|r.messages| - |s.messages|..] == s.messages
    decreases |actions|
  {
    if actions != [] {
      var s' := Reduce(s, actions[0]);
      assert s'.messages[|s'.messages| - |s.messages|..] == s.messages;
      assert NoReset(actions[1..]);
      RunKeepsOldTranscript(s', actions[1..]);
      var m := Run(s', actions[1..]).messages;
      assert m[|m| - |s.messages|..] == m[|m| - |s'.messages|..][|s'.messages| - |s.messages|..];
    }
  }

  /** One `addMessage` action per message, in call order. */
  function AddAll(ms: seq<Message>): (actions: seq<Action>)
    ensures |actions| == |ms|
    ensures forall i :: 0 <= i < |ms| ==> actions[i] == AddMessage(ms[i])
  {
    seq(|ms|, i requires 0 <= i < |ms| => AddMessage(ms[i]))
  }

  /** The messages in reverse call order. */
  function Reversed(ms: seq<Message>): seq<Message> {
    if ms == [] then [] else Reversed(ms[1..]) + [ms[0]]
  }

  lemma {:induction false} ReversedAt(ms: seq<Message>, k: nat)
    requires k < |ms|
    ensures |Reversed(ms)| == |ms| && Reversed(ms)[k] == ms[|ms| - 1 - k]
  {
    if |ms| > 1 {
      ReversedAt(ms[1..], if k < |ms| - 1 then k else 0);
    }
  }

  /** Dispatching `xs` then `ys` is dispatching their concatenation. */
  lemma {:induction false} RunConcat(s: ChatState, xs: seq<Action>, ys: seq<Action>)
    ensures Run(s, xs + ys) == Run(Run(s, xs), ys)
    decreases |xs|
  {
    if xs != [] {
      assert (xs + ys)[1..] == xs[1..] + ys;
      RunConcat(Reduce(s, xs[0]), xs[1..], ys);
    } else {
      assert xs + ys == ys;
    }
  }

  /**
   * A run of `addMessage` actions puts the messages in front of the old
   * transcript in reverse call order and does not touch the session id.
   */
  lemma {:induction false} AddAllPrepends(s: ChatState, ms: seq<Message>)
    ensures Run(s, AddAll(ms)) == ChatState(s.sessionId, Reversed(ms) + s.messages)
    decreases |ms|
  {
    if ms != [] {
      var acts, s' := AddAll(ms), ChatState(s.sessionId, [ms[0]] + s.messages);
      assert acts[0] == AddMessage(ms[0]) && Reduce(s, acts[0]) == s';
      assert acts[1..] == AddAll(ms[1..]);
      assert Run(s, acts) == Run(s', AddAll(ms[1..]));
      AddAllPrepends(s', ms[1..]);
      assert Reversed(ms[1..]) + ([ms[0]] + s.messages) == Reversed(ms) + s.messages;
    }
  }

  /**
   * From the initial state, n `addMessage` calls leave n messages, the
   * last call's message at index 0 and the first call's at index n - 1.
   */
  lemma TranscriptNewestFirst(ms: seq<Message>)
    ensures Run(Initial, AddAll(ms)).sessionId == None
    ensures |Run(Initial, AddAll(ms)).messages| == |ms|
    ensures forall k :: 0 <= k < |ms| ==> Run(Initial, AddAll(ms)).messages[k] == ms[|ms| - 1 - k]
  {
    AddAllPrepends(Initial, ms);
    assert Reversed(ms) + [] == Reversed(ms);
    if ms != [] {
      ReversedAt(ms, 0);
    }
    forall k | 0 <= k < |ms| ensures Reversed(ms)[k] == ms[|ms| - 1 - k] {
      ReversedAt(ms, k);
    }
  }

  /** Whatever was dispatched before, `resetChat` leaves the initial state. */
  lemma ResetForgetsHistory(s: ChatState, history: seq<Action>)
    ensures Run(s, history + [ResetChat]) == Initial
  {
    RunConcat(s, history, [ResetChat]);
  }

  /** Dispatching `resetChat` twice is dispatching it once. */
  lemma ResetIdempotent(s: ChatState)
    ensures Run(s, [ResetChat, ResetChat]) == Run(s, [ResetChat])
  {
  }

  /**
   * `setSessionId` and `addMessage` touch disjoint fields: each keeps the
   * other's field, so their order does not matter.
   */
  lemma SessionAndTranscriptIndependent(s: ChatState, id: Option<string>, m: Message)
    ensures Reduce(s, SetSessionId(id)).messages == s.messages
    ensures Reduce(s, AddMessage(m)).sessionId == s.sessionId
    ensures Run(s, [SetSessionId(id), AddMessage(m)]) == Run(s, [AddMessage(m), SetSessionId(id)])
  {
  }

  /**
   * The slice as live state. `persisted` is the one browser-storage slot
   * (key `chatState`) holding the last saved snapshot, if any.
   */
  class ChatStore {
    var sessionId: Option<string>
    var messages: seq<Message>
    var persisted: Option<ChatState>

    function State(): ChatState
      reads this
    {
      ChatState(sessionId, messages)
    }

    /** A store created from `initialState`; `slot` is whatever storage holds. */
    constructor(slot: Option<ChatState>)
      ensures State() == Initial && sessionId == None && messages == []
      ensures persisted == slot
    {
      sessionId := None;
      messages := [];
      persisted := slot;
    }

    method SetSessionId(id: Option<string>)
      modifies this
      ensures State() == Reduce(old(State()), Action.SetSessionId(id))
      ensures sessionId == id && messages == old(messages)
      ensures persisted == old(persisted)
    {
      sessionId := id;
    }

    method AddMessage(m: Message)
      modifies this
      ensures State() == Reduce(old(State()), Action.AddMessage(m))
      ensures messages == [m] + old(messages) && messages[0] == m
      ensures |messages| == |old(messages)| + 1
      ensures sessionId == old(sessionId) && persisted == old(persisted)
    {
      messages := [m] + messages;
    }

    /** Clears the storage slot, then returns to `initialState`. */
    method ResetChat()
      modifies this
      ensures State() == Reduce(old(State()), Action.ResetChat)
      ensures sessionId == None && messages == []
      ensures persisted == None
    {
      persisted := None;
      sessionId, messages := Initial.sessionId, Initial.messages;
    }
  }
}
