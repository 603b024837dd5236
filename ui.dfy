/**
 * The input controls of the chat panel (src/components/UI.jsx): the
 * single-flight send guard, the Enter-key path, the disabled state of the
 * Send and microphone buttons, and the camera toggle.
 *
 * The text field `input.current.value` is the field `input`; the chat
 * provider the component reads through `useChat()` is the `store` it holds.
 */
module UI {
  import opened Wrappers
  import opened UseChat
  import opened Speech

  /**
   * The characters `String.prototype.trim` removes: the ECMAScript
   * WhiteSpace code points (tab, vertical tab, form feed, space, no-break
   * space, zero width no-break space and the Unicode space separators) and
   * the LineTerminator code points.
   */
  predicate IsWhitespace(c: char) {
    c == '\t' || c == '\n' || c == '\U{000B}' || c == '\U{000C}' || c == '\r' ||
    c == ' ' || c == '\U{00A0}' || c == '\U{1680}' ||
    ('\U{2000}' <= c <= '\U{200A}') ||
    c == '\U{2028}' || c == '\U{2029}' || c == '\U{202F}' || c == '\U{205F}' ||
    c == '\U{3000}' || c == '\U{FEFF}'
  }

  /** `s` with its leading whitespace removed: a suffix of `s` that does not start with whitespace. */
  function TrimStart(s: string): (r: string)
    ensures |r| <= |s| && r == s[|s| - |r|..]
    ensures forall i :: 0 <= i < |s| - |r| ==> IsWhitespace(s[i])
    ensures r != [] ==> !IsWhitespace(r[0])
  {
    if s != [] && IsWhitespace(s[0]) then TrimStart(s[1..]) else s
  }

  /** `s` with its trailing whitespace removed: a prefix of `s` that does not end with whitespace. */
  function TrimEnd(s: string): (r: string)
    ensures |r| <= |s| && r == s[..|r|]
    ensures forall i :: |r| <= i < |s| ==> IsWhitespace(s[i])
    ensures r != [] ==> !IsWhitespace(r[|r| - 1])
  {
    if s != [] && IsWhitespace(s[|s| - 1]) then TrimEnd(s[..|s| - 1]) else s
  }

  /** `text.trim()`. */
  function Trim(s: string): string {
    TrimEnd(TrimStart(s))
  }

  /** `text.trim()` is the empty (falsy) string exactly when every character of `text` is whitespace. */
  lemma TrimEmptyIffBlank(s: string)
    ensures Trim(s) == [] <==> forall i :: 0 <= i < |s| ==> IsWhitespace(s[i])
  {
    var t := TrimStart(s);
    if Trim(s) == [] {
      forall i | 0 <= i < |s| ensures IsWhitespace(s[i]) {
        if i >= |s| - |t| {
          assert s[i] == t[i - (|s| - |t|)];
        }
      }
    } else {
      var r := Trim(s);
      assert r[0] == t[0] && t[0] == s[|s| - |t|];
    }
  }

  /**
   * The guard of `sendMessage`: not loading, no active reply, and text whose
   * `trim()` is non-empty, that is, text with a character that is not whitespace.
   */
  function CanSend(loading: bool, message: Option<Msg>, text: string): (ok: bool)
    ensures ok <==> !loading && message.None? && exists i :: 0 <= i < |text| && !IsWhitespace(text[i])
  {
    TrimEmptyIffBlank(text);
    !loading && message.None? && Trim(text) != []
  }

  /**
   * `loading || message`, the `disabled` state of the Send button and of the
   * microphone: it holds exactly when the guard of `sendMessage` would refuse
   * every text.
   */
  function SendDisabled(loading: bool, message: Option<Msg>): (d: bool)
    ensures d <==> forall text :: !CanSend(loading, message, text)
  {
    if loading || message.Some? then
      true
    else
      var text := "x";
      assert !IsWhitespace(text[0]);
      assert CanSend(loading, message, text);
      false
  }

  /** The mutable parts of the `UI` component: the text field and the provider it talks to. */
  class ChatControls {
    const store: ChatProvider
    var input: string

    constructor (store: ChatProvider)
      ensures this.store == store && input == []
    {
      this.store := store;
      input := [];
    }

    /**
     * `sendMessage`: when the guard holds, the raw (untrimmed) text is passed
     * to `chat` and the field is cleared; otherwise nothing happens.
     */
    method SendMessage() returns (sent: bool)
      requires store.Valid()
      modifies this, store
      ensures store.Valid()
      ensures sent == CanSend(old(store.loading), old(store.message), old(input))
      ensures sent ==> input == [] && store.loading &&
                       store.messages == old(store.messages) + [UserTurn(old(input))] &&
                       store.message == old(store.message) && store.processed == old(store.processed) &&
                       store.cameraZoomed == old(store.cameraZoomed)
      ensures !sent ==> input == old(input) && unchanged(store)
    {
      var text := input;
      sent := CanSend(store.loading, store.message, text);
      if sent {
        store.Submit(text);
        input := [];
      }
    }

    /** The `onKeyDown` handler of the text field: Enter takes the Send path, other keys do nothing. */
    method OnKeyDown(key: string) returns (sent: bool)
      requires store.Valid()
      modifies this, store
      ensures store.Valid()
      ensures key != "Enter" ==> !sent && input == old(input) && unchanged(store)
      ensures key == "Enter" ==> sent == CanSend(old(store.loading), old(store.message), old(input))
      ensures key == "Enter" && sent ==> input == [] && store.loading &&
                                         store.messages == old(store.messages) + [UserTurn(old(input))] &&
                                         store.message == old(store.message) && store.processed == old(store.processed) &&
                                         store.cameraZoomed == old(store.cameraZoomed)
      ensures key == "Enter" && !sent ==> input == old(input) && unchanged(store)
    {
      if key == "Enter" {
        sent := SendMessage();
      } else {
        sent := false;
      }
    }

    /**
     * A click on the microphone of the rendered `SpeechRecognition`, which
     * receives `disabled={loading || message}`: while the chat is busy the
     * click requests nothing.
     */
    method PressMicrophone(mic: SpeechRecognition) returns (req: Request)
      ensures SendDisabled(store.loading, store.message) || !mic.speechSupported ==> req == NoRequest
      ensures !SendDisabled(store.loading, store.message) && mic.speechSupported && mic.isListening ==>
                (req == Stop <==> mic.hasRecognizer) && req != Start
      ensures !SendDisabled(store.loading, store.message) && mic.speechSupported && !mic.isListening ==>
                (req == Start <==> mic.hasRecognizer) && req != Stop
    {
      req := mic.ClickMicrophone(SendDisabled(store.loading, store.message));
    }

    /** The camera button: `setCameraZoomed(!cameraZoomed)`. */
    method ToggleCamera()
      requires store.Valid()
      modifies store`cameraZoomed
      ensures store.Valid()
      ensures store.cameraZoomed == !old(store.cameraZoomed)
    {
      store.SetCameraZoomed(!store.cameraZoomed);
    }
  }
}
