/**
 * The conversation and playback store of the chat provider (src/hooks/useChat.jsx).
 *
 * The store owns the message history, the single active reply slot, the
 * in-flight flag and the set of history indices already handed to playback.
 * Each asynchronous step of the source (a request starting, a response or a
 * failure arriving, the selection effect running, playback finishing) is one
 * atomic method of `ChatProvider`. The network is replaced by an `Outcome`
 * value: a decoded payload, or a failure (transport error, malformed JSON).
 */
module UseChat {
  import opened Wrappers

  /** One turn of the conversation. The role is kept as the backend sends it. */
  datatype Msg = Msg(role: string, content: string)

  /**
   * A decoded backend response: either a single message object (its own
   * `role` and `content`) or an object carrying a `messages` array.
   */
  datatype Payload = Payload(role: string, content: string, messages: Option<seq<Msg>>)

  /** What a request to the backend yields. */
  datatype Outcome = Received(payload: Payload) | Failed

  const UserRole: string := "user"
  const AssistantRole: string := "assistant"
  const ErrorText: string := "Sorry, I encountered an error. Please try again."

  predicate IsUser(m: Msg) {
    m.role == UserRole
  }

  /** The history entry a submission of `text` appends. */
  function UserTurn(text: string): Msg {
    Msg(UserRole, text)
  }

  /** The synthetic reply that stands in for a failed request. */
  function ErrorReply(): Msg {
    Msg(AssistantRole, ErrorText)
  }

  /**
   * `responseData.messages || [responseData]`: the list of replies a payload
   * contributes. A present `messages` array is taken as it is, even when empty
   * (an empty array is truthy).
   */
  function Normalize(p: Payload): (r: seq<Msg>)
    ensures p.messages.Some? ==> r == p.messages.value
    ensures p.messages.None? ==> r == [Msg(p.role, p.content)]
    ensures r == [] <==> p.messages == Some([])
  {
    if p.messages.Some? then p.messages.value else [Msg(p.role, p.content)]
  }

  /** Index `i` may be selected for playback: in range, not a user turn, not yet processed. */
  predicate Playable(msgs: seq<Msg>, processed: set<nat>, i: int) {
    0 <= i < |msgs| && i !in processed && !IsUser(msgs[i])
  }

  /**
   * The `find` scan of the selection effect, started at `from`: the lowest
   * playable index at or after `from`, or None when there is none.
   */
  function FindNext(msgs: seq<Msg>, processed: set<nat>, from: nat): (r: Option<nat>)
    decreases |msgs| - from
    ensures r.Some? ==> from <= r.value && Playable(msgs, processed, r.value)
    ensures forall i :: from <= i < |msgs| && (r.None? || i < r.value) ==> !Playable(msgs, processed, i)
  {
    if from >= |msgs| then None
    else if Playable(msgs, processed, from) then Some(from)
    else FindNext(msgs, processed, from + 1)
  }

  /**
   * Playback has followed history order: every processed index holds a
   * non-user message, and every non-user message before a processed one has
   * been processed too.
   */
  ghost predicate InHistoryOrder(msgs: seq<Msg>, processed: set<nat>) {
    (forall j :: j in processed ==> j < |msgs| && !IsUser(msgs[j])) &&
    (forall i, j :: 0 <= i < j < |msgs| && j in processed && !IsUser(msgs[i]) ==> i in processed)
  }

  /** Appending to the history keeps playback in order (chat never edits earlier turns). */
  lemma AppendKeepsOrder(msgs: seq<Msg>, extra: seq<Msg>, processed: set<nat>)
    requires InHistoryOrder(msgs, processed)
    ensures InHistoryOrder(msgs + extra, processed)
  {
    var all := msgs + extra;
    forall i, j | 0 <= i < j < |all| && j in processed && !IsUser(all[i])
      ensures i in processed
    {
      assert all[i] == msgs[i];
    }
  }

  /** Marking the index the scan found keeps playback in order. */
  lemma SelectKeepsOrder(msgs: seq<Msg>, processed: set<nat>)
    requires InHistoryOrder(msgs, processed)
    requires FindNext(msgs, processed, 0).Some?
    ensures InHistoryOrder(msgs, processed + {FindNext(msgs, processed, 0).value})
  {
    var k := FindNext(msgs, processed, 0).value;
    forall i, j | 0 <= i < j < |msgs| && j in processed + {k} && !IsUser(msgs[i])
      ensures i in processed + {k}
    {
      if j == k {
        assert !Playable(msgs, processed, i);
      }
    }
  }

  /**
   * Replies queue behind older unplayed ones: once the scan finds index `k`
   * in a history, appending more turns leaves the scan's answer at `k`.
   */
  lemma {:induction false} FindNextStableUnderAppend(msgs: seq<Msg>, extra: seq<Msg>, processed: set<nat>, from: nat)
    requires FindNext(msgs, processed, from).Some?
    ensures FindNext(msgs + extra, processed, from) == FindNext(msgs, processed, from)
    decreases |msgs| - from
  {
    var all := msgs + extra;
    assert all[from] == msgs[from];
    if !Playable(msgs, processed, from) {
      FindNextStableUnderAppend(msgs, extra, processed, from + 1);
    }
  }

  /**
   * When playback is in order, the scan returns the first non-user index past
   * everything processed: no reply of a later batch is played while one of an
   * earlier batch is still waiting.
   */
  lemma {:induction false} EarlierRepliesFirst(msgs: seq<Msg>, processed: set<nat>, i: nat, j: nat)
    requires InHistoryOrder(msgs, processed)
    requires i < j < |msgs| && !IsUser(msgs[i]) && !IsUser(msgs[j])
    requires i !in processed
    ensures j !in processed
    ensures FindNext(msgs, processed, 0) != Some(j)
  {
    assert Playable(msgs, processed, i);
    var r := FindNext(msgs, processed, 0);
    assert r.Some? && r.value <= i;
  }

  /**
   * The state of the chat provider: `messages`, `message` (the active
   * reply), `loading`, `processedMessageIds` and `cameraZoomed`.
   */
  class ChatProvider {
    var messages: seq<Msg>
    var message: Option<Msg>
    var loading: bool
    var processed: set<nat>
    var cameraZoomed: bool

    /** The active slot never holds a user turn. */
    ghost predicate Valid()
      reads this
    {
      message.Some? ==> !IsUser(message.value)
    }

    /** Playback so far has followed history order. */
    ghost predicate PlaybackInOrder()
      reads this
    {
      InHistoryOrder(messages, processed)
    }

    /** The initial state of the provider's `useState` hooks. */
    constructor ()
      ensures Valid() && PlaybackInOrder()
      ensures messages == [] && message.None? && !loading && processed == {} && cameraZoomed
    {
      messages := [];
      message := None;
      loading := false;
      processed := {};
      cameraZoomed := true;
    }

    /**
     * The synchronous start of `chat(userMessage)`: the user turn is appended
     * and the request goes in flight. `chat` itself accepts any call; the
     * single-flight guard lives in the UI.
     */
    method Submit(text: string)
      requires Valid()
      modifies this`messages, this`loading
      ensures Valid()
      ensures messages == old(messages) + [UserTurn(text)] && loading
      ensures old(messages) <= messages
      ensures old(PlaybackInOrder()) ==> PlaybackInOrder()
    {
      messages := messages + [UserTurn(text)];
      loading := true;
      if old(PlaybackInOrder()) {
        AppendKeepsOrder(old(messages), [UserTurn(text)], processed);
      }
    }

    /** The request of `chat` succeeded with payload `p`: its replies are appended, loading ends. */
    method CompleteOk(p: Payload)
      requires Valid()
      modifies this`messages, this`loading
      ensures Valid()
      ensures messages == old(messages) + Normalize(p) && !loading
      ensures p.messages.None? ==> |messages| == |old(messages)| + 1
      ensures old(messages) <= messages
      ensures old(PlaybackInOrder()) ==> PlaybackInOrder()
    {
      messages := messages + Normalize(p);
      loading := false;
      if old(PlaybackInOrder()) {
        AppendKeepsOrder(old(messages), Normalize(p), processed);
      }
    }

    /** The request of `chat` failed: exactly one apology is appended, loading ends. */
    method CompleteFail()
      requires Valid()
      modifies this`messages, this`loading
      ensures Valid()
      ensures messages == old(messages) + [ErrorReply()] && !loading
      ensures |messages| == |old(messages)| + 1 && !IsUser(messages[|messages| - 1])
      ensures old(messages) <= messages
      ensures old(PlaybackInOrder()) ==> PlaybackInOrder()
    {
      messages := messages + [ErrorReply()];
      loading := false;
      if old(PlaybackInOrder()) {
        AppendKeepsOrder(old(messages), [ErrorReply()], processed);
      }
    }

    /**
     * The greeting request completed: history is replaced by its replies, or
     * by the single apology on failure. The processed set and the active slot
     * are left as they are (see `LateGreetingSession`).
     */
    method Greeting(o: Outcome)
      requires Valid()
      modifies this`messages
      ensures Valid()
      ensures o.Received? ==> messages == Normalize(o.payload)
      ensures o.Failed? ==> messages == [ErrorReply()]
      ensures processed == old(processed) && message == old(message)
    {
      match o {
        case Received(p) => messages := Normalize(p);
        case Failed => messages := [ErrorReply()];
      }
    }

    /** `onMessagePlayed`: frees the active slot and changes nothing else. */
    method OnMessagePlayed()
      requires Valid()
      modifies this`message
      ensures Valid() && message.None?
      ensures old(PlaybackInOrder()) ==> PlaybackInOrder()
    {
      message := None;
    }

    /**
     * The selection effect. While a reply is active nothing changes; otherwise
     * the earliest playable index (if any) becomes the active reply and is
     * recorded as processed. `picked` is the index the scan found.
     */
    method SelectNext() returns (picked: Option<nat>)
      requires Valid()
      modifies this`message, this`processed
      ensures Valid()
      ensures old(processed) <= processed
      ensures old(message).Some? ==> picked.None? && message == old(message) && processed == old(processed)
      ensures old(message).None? ==> picked == FindNext(messages, old(processed), 0)
      ensures picked.Some? ==>
                picked.value < |messages| && !IsUser(messages[picked.value]) &&
                picked.value !in old(processed) &&
                message == Some(messages[picked.value]) && processed == old(processed) + {picked.value}
      ensures picked.None? ==> processed == old(processed)
      ensures old(message).None? && picked.None? ==> message.None?
      ensures old(PlaybackInOrder()) ==> PlaybackInOrder()
    {
      if message.Some? {
        return None;
      }
      picked := FindNext(messages, processed, 0);
      if picked.Some? {
        message := Some(messages[picked.value]);
        if old(PlaybackInOrder()) {
          SelectKeepsOrder(messages, processed);
        }
        processed := processed + {picked.value};
      } else {
        message := None;
      }
    }

    /** `setCameraZoomed`. */
    method SetCameraZoomed(zoomed: bool)
      requires Valid()
      modifies this`cameraZoomed
      ensures Valid() && cameraZoomed == zoomed
    {
      cameraZoomed := zoomed;
    }
  }

  /**
   * A session driven only through the contracts above: the greeting is
   * played, then a two-reply exchange is played in order, and acknowledging
   * playback twice is the same as once.
   */
  method SessionInOrder() {
    var store := new ChatProvider();
    store.Greeting(Received(Payload(AssistantRole, "Hi", None)));
    var picked := store.SelectNext();
    assert picked == Some(0) && store.message == Some(Msg(AssistantRole, "Hi"));

    store.OnMessagePlayed();
    store.OnMessagePlayed();
    store.Submit("price?");
    var first := Msg(AssistantRole, "$10");
    var second := Msg(AssistantRole, "Anything else?");
    store.CompleteOk(Payload("", "", Some([first, second])));
    var history := store.messages;
    assert history == [Msg(AssistantRole, "Hi"), UserTurn("price?"), first, second];
    assert !Playable(history, {0}, 0) && !Playable(history, {0}, 1) && Playable(history, {0}, 2);
    assert store.processed == {0} && store.message.None? && !store.loading;

    picked := store.SelectNext();
    assert picked == Some(2) && store.message == Some(first);
    picked := store.SelectNext();
    assert picked.None? && store.message == Some(first);
    store.OnMessagePlayed();
    assert store.processed == {0, 2} && store.messages == history;
    assert !Playable(history, {0, 2}, 2) && Playable(history, {0, 2}, 3);
    picked := store.SelectNext();
    assert picked == Some(3) && store.message == Some(second);
  }

  /** A failed exchange adds exactly the apology, clears loading, and the apology is played next. */
  method SessionRecovers() {
    var store := new ChatProvider();
    store.Greeting(Failed);
    var picked := store.SelectNext();
    assert picked == Some(0) && store.message == Some(ErrorReply());
    store.OnMessagePlayed();

    store.Submit("again");
    assert store.loading;
    store.CompleteFail();
    assert store.messages == [ErrorReply(), UserTurn("again"), ErrorReply()] && !store.loading;
    assert store.processed == {0} && store.message.None?;
    assert !Playable(store.messages, {0}, 1) && Playable(store.messages, {0}, 2);
    picked := store.SelectNext();
    assert picked == Some(2) && store.message == Some(ErrorReply());
  }

  /**
   * A greeting that arrives after a reply of an earlier exchange was played
   * keeps the processed index of that reply, so the greeting reply at the
   * same index is never played.
   */
  method LateGreetingSession() {
    var store := new ChatProvider();
    store.Submit("hello");
    store.CompleteOk(Payload(AssistantRole, "Hi there", None));
    assert !Playable(store.messages, {}, 0) && Playable(store.messages, {}, 1);
    var picked := store.SelectNext();
    assert picked == Some(1) && store.processed == {1};
    store.OnMessagePlayed();

    var welcome := Msg(AssistantRole, "Welcome");
    var intro := Msg(AssistantRole, "Ask me anything");
    store.Greeting(Received(Payload("", "", Some([welcome, intro]))));
    assert store.messages == [welcome, intro] && store.processed == {1};
    assert Playable(store.messages, {1}, 0);
    picked := store.SelectNext();
    assert picked == Some(0) && store.message == Some(welcome);
    store.OnMessagePlayed();
    assert !Playable(store.messages, {0, 1}, 1);
    picked := store.SelectNext();
    assert picked.None? && store.message.None? && store.messages[1] == intro;
  }
}
