# Avatar chat: conversation and playback store, in Dafny

This project models the conversation core of a 3D avatar chat front end. A user
types or speaks a message. The backend returns one or more reply utterances.
The avatar plays the replies one at a time, and the UI accepts no further input
while a reply is playing. The model covers three pieces of the front end.

- `UseChat` (`use_chat.dfy`, from `src/hooks/useChat.jsx`). The chat provider is
  a class, `ChatProvider`, with these fields:
  - `messages`: the history;
  - `message`: the single active reply slot;
  - `loading`: the in-flight flag;
  - `processed`: the history indices already handed to playback;
  - `cameraZoomed`.

  Each asynchronous step of the provider is one atomic method:
  - `Submit`: the synchronous start of `chat`;
  - `CompleteOk` and `CompleteFail`: the request's outcome;
  - `Greeting`: the greeting fetch;
  - `SelectNext`: the selection effect;
  - `OnMessagePlayed`.

  The network is an `Outcome` value: a decoded payload or a failure. The
  `find` scan is the pure function `FindNext`. `InHistoryOrder` states that
  playback follows history order. The lemmas beside it prove that every
  transition except `Greeting` keeps that order. `Greeting` keeps `processed`
  while it replaces the history, so a greeting that arrives after a reply was
  played can break the order (see below).
- `UI` (`ui.dfy`, from `src/components/UI.jsx`). This module holds:
  - the single-flight send guard `CanSend`, with JavaScript's `String.prototype.trim`
    written out over the ECMAScript whitespace set;
  - the Enter-key path;
  - the disabled condition;
  - the camera toggle.

  The text field is a field of `ChatControls`, and the provider is the object
  that `ChatControls` holds.
- `Speech` (`speech.dfy`, from `src/components/SpeechRecognition.jsx`). The
  listening toggle and the transcript accumulator. The `onresult` loop is the
  method `SplitResults`, proved against the folds `Finals` and `Interims`.
  Requests to the browser recognizer (`start()`/`stop()`) are returned as a
  `Request` value. Writes to the text field are returned as strings.

`Wrappers` (`wrappers.dfy`) holds the `Option` type. Three client methods drive
the provider through its contracts alone:
- `UseChat.SessionInOrder` plays a greeting, then a two-reply exchange in order.
- `UseChat.SessionRecovers` recovers from failed requests.
- `UseChat.LateGreetingSession` shows a greeting reply being skipped (see below).

### Behaviour of the code worth knowing

- A send is refused while a reply is active, not only while a request is in
  flight (`src/components/UI.jsx` line 13).
- A `messages` array in a response is taken as it is, even when empty. An empty
  array is truthy, so a successful exchange can add zero replies.
- A reply's role is kept as sent. Only `"user"` is excluded from playback, so a
  reply without a role is played.
- Selecting the next reply is its own step, `SelectNext`. `OnMessagePlayed` only
  empties the slot.
- The provider keeps no record of the last failure. A failure becomes the
  apology message and nothing else.
- The greeting replaces the history but keeps `processed` and the active slot.
  If the greeting arrives after a reply of an earlier exchange was played, the
  greeting reply at that reply's index is never played.
  `UseChat.LateGreetingSession` walks through such a run.

## Model

| member | source | states |
|---|---|---|
| `UseChat.FindNext` | src/hooks/useChat.jsx:80-82 | the scan returns an index that is not a user turn and not yet processed, and no such index lies before it; None exactly when no index at or after the start qualifies |
| `UseChat.Normalize` | src/hooks/useChat.jsx:24 | a present `messages` array is taken verbatim, otherwise the payload itself is the one reply; the result is empty only for an empty `messages` array |
| `UseChat.AppendKeepsOrder` | src/hooks/useChat.jsx:27 | appending turns to the history keeps playback in history order for the same processed set |
| `UseChat.SelectKeepsOrder` | src/hooks/useChat.jsx:80-88 | marking the index the scan found as processed keeps playback in history order |
| `UseChat.FindNextStableUnderAppend` | src/hooks/useChat.jsx:80-82 | once an unplayed reply exists, later appended turns do not change which index the scan picks: new replies queue behind older ones |
| `UseChat.EarlierRepliesFirst` | src/hooks/useChat.jsx:80-88 | with playback in order, while an earlier non-user message is unplayed no later one is processed or picked |
| `UseChat.ChatProvider.constructor` | src/hooks/useChat.jsx:38-42 | empty history, no active reply, not loading, nothing processed, camera zoomed |
| `UseChat.ChatProvider.Submit` | src/hooks/useChat.jsx:10-13 | exactly one `{role:"user", content:text}` is appended and loading becomes true; the old history is a prefix of the new; playback order is kept |
| `UseChat.ChatProvider.CompleteOk` | src/hooks/useChat.jsx:24-35 | history grows by exactly the normalised replies (the `messages` array, or the single payload); loading ends false; old history is a prefix |
| `UseChat.ChatProvider.CompleteFail` | src/hooks/useChat.jsx:28-35 | exactly one assistant apology with the fixed text is appended; loading ends false; old history is a prefix |
| `UseChat.ChatProvider.Greeting` | src/hooks/useChat.jsx:53-61 | history is replaced by the normalised replies, or by the single apology on failure; the processed set and the active slot are kept |
| `UseChat.ChatProvider.OnMessagePlayed` | src/hooks/useChat.jsx:68-71 | the active slot is emptied and nothing else changes, so a second call has the same effect as one |
| `UseChat.ChatProvider.SelectNext` | src/hooks/useChat.jsx:73-92 | with a reply active nothing changes; otherwise the earliest unplayed non-user index becomes active and is added to processed, or the slot stays empty; the active reply is never a user turn; processed only grows; playback order is kept |
| `UseChat.ChatProvider.SetCameraZoomed` | src/hooks/useChat.jsx:41 | the camera flag takes the given value |
| `UI.TrimStart` | src/components/UI.jsx:13 | the result is the suffix of the text after its leading whitespace, and does not start with whitespace |
| `UI.TrimEnd` | src/components/UI.jsx:13 | the result is the prefix of the text before its trailing whitespace, and does not end with whitespace |
| `UI.TrimEmptyIffBlank` | src/components/UI.jsx:13 | `text.trim()`, which is `Trim`, that is `TrimEnd` applied after `TrimStart`, is empty exactly when every character is whitespace |
| `UI.CanSend` | src/components/UI.jsx:13 | the guard holds exactly when not loading, no reply is active and the text has a character that is not whitespace |
| `UI.SendDisabled` | src/components/UI.jsx:93-96 | the disabled state (loading, or a reply active) holds exactly when the guard refuses every text |
| `UI.ChatControls.constructor` | src/components/UI.jsx:7-8 | the controls talk to the given provider and the text field starts empty |
| `UI.ChatControls.SendMessage` | src/components/UI.jsx:11-17 | sends exactly when not loading, no reply active and the text is not blank; an accepted send submits the raw untrimmed text and clears the field; a rejected one changes nothing |
| `UI.ChatControls.OnKeyDown` | src/components/UI.jsx:83-87 | Enter takes exactly the Send path; any other key changes nothing |
| `UI.ChatControls.PressMicrophone` | src/components/UI.jsx:89-94 | the microphone gets the Send button's disabled state: while loading or a reply is active a click requests nothing; otherwise it toggles as the recognizer's button does |
| `UI.ChatControls.ToggleCamera` | src/components/UI.jsx:41-42 | the camera flag is flipped |
| `Speech.Finals` | src/components/SpeechRecognition.jsx:30-36 | `finalTranscript` is the in-order concatenation of the texts of exactly the final results |
| `Speech.Interims` | src/components/SpeechRecognition.jsx:31-38 | `interimTranscript` is the in-order concatenation of the texts of exactly the non-final results |
| `Speech.Pending` | src/components/SpeechRecognition.jsx:33 | the results from `resultIndex` to the end, in order; none when `resultIndex` is past the end |
| `Speech.SplitAppend` | src/components/SpeechRecognition.jsx:33-40 | the final and interim folds distribute over concatenation of result lists |
| `Speech.SplitIsPartition` | src/components/SpeechRecognition.jsx:33-40 | the final and interim parts together hold the same characters as all result texts, with the same multiplicities, so none is lost or counted twice; their lengths add up |
| `Speech.InterimOnlyAddsNoFinal` | src/components/SpeechRecognition.jsx:33-44 | results that are all interim add nothing to the final part: the stored transcript does not change |
| `Speech.SplitResults` | src/components/SpeechRecognition.jsx:30-40 | the loop from `resultIndex` on yields, in order, the concatenated final texts and the concatenated interim texts |
| `Speech.SpeechRecognition.constructor` | src/components/SpeechRecognition.jsx:4-8 | not listening, fresh start, empty transcript; a recognizer exists exactly when speech is supported |
| `Speech.SpeechRecognition.StartListening` | src/components/SpeechRecognition.jsx:86-90 | a start is requested exactly when a recognizer exists and is not listening |
| `Speech.SpeechRecognition.StopListening` | src/components/SpeechRecognition.jsx:92-96 | a stop is requested exactly when a recognizer exists and is listening |
| `Speech.SpeechRecognition.ToggleListening` | src/components/SpeechRecognition.jsx:98-104 | while listening only a stop can be requested, otherwise only a start, each exactly when a recognizer exists |
| `Speech.SpeechRecognition.ClickMicrophone` | src/components/SpeechRecognition.jsx:108-110 | the button is disabled when the chat is busy or speech input is unsupported, and a click on it then requests nothing; an enabled click only stops while listening and only starts otherwise, each exactly when a recognizer exists |
| `Speech.SpeechRecognition.OnStart` | src/components/SpeechRecognition.jsx:20-27 | listening becomes true; a fresh start clears the transcript and ends freshness, otherwise the transcript is kept |
| `Speech.SpeechRecognition.OnResult` | src/components/SpeechRecognition.jsx:29-58 | the stored transcript becomes the previous one plus the final texts; the display adds the interim texts; the old transcript is a prefix of the new one, which is a prefix of the display |
| `Speech.SpeechRecognition.OnEnd` | src/components/SpeechRecognition.jsx:66-77 | listening stops, the next start is fresh, the transcript is kept and written to the field only when non-empty |
| `Speech.SpeechRecognition.OnError` | src/components/SpeechRecognition.jsx:61-64 | only the listening flag changes, to false |

## Left out

- Network and JSON I/O. The `fetch` calls, `data.json()` and the backend URL
  become an `Outcome`. Every failure path of the request (transport error,
  malformed JSON, a `null` payload whose `.messages` throws) is the single case
  `Failed`.
- A `messages` field that is present but is not an array (a string, a number)
  is not modelled. The payload either has a message list or has none.
- React scheduling. Effect re-runs, batching of state updates and the context
  plumbing (`createContext`, the `useChat` guard that throws) are not modelled.
  Each handler is one atomic transition, and the selection effect is the
  explicit step `SelectNext`.
- The source looks up the chosen message's index again with `findIndex` by object
  identity. The model records the index the scan found. The two agree because
  every history entry is a distinct object.
- Several concurrent `chat` calls are not modelled as interleaved requests.
  `Submit`, `CompleteOk` and `CompleteFail` are separate steps and may be called
  in any order, so an interleaving is a sequence of them.
- `Speech.SpeechRecognition.OnStart`: the browser handler reads the `isFreshStart`
  captured when the recognizer was created (a stale closure). The model reads
  the current value.
- The construction and configuration of the browser recognizer (language,
  continuous and interim modes) and the `speechSupported` detection are not
  modelled. The constructor takes support as a parameter.
- `Speech.SpeechRecognition.OnResult` and `Speech.SpeechRecognition.OnEnd`
  assume the text field exists. The `inputRef.current` null check is not
  modelled.
- Each recognition result is its first alternative (`results[i][0]`). An empty
  alternative list is not modelled.
- The `onTranscriptUpdate` callback only logs in `UI.jsx`. The model returns
  its argument as `display`.
- The UI's `isListening` state only chooses a placeholder text and is not
  modelled. The recognizer component never calls back into it.
- Rendering is not modelled: the chat box, the 3D scene and camera, the
  background fitting, the animated ellipsis, SVG and CSS markup, and all
  console logging. `ChatBox.jsx`, `Background.jsx` and `Experience.jsx` are not
  part of this model.
