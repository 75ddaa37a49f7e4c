# PDF question-answering chat front end — state model

This project models the client-side state handling of a small React front end
for a PDF question-answering chatbot. The user picks a provider ("gemini" or
"chatgpt"), types a secret code when the provider is "chatgpt", chooses a PDF
and uploads it. The backend answers with a session id. The user then asks
questions and can end the chat.

Two pieces are modelled:

- **The `chat` slice of the Redux store** (module `ChatSlice`). The state is
  `{sessionId, messages}`, and the constant `Initial` is `initialState`
  (no session id, empty transcript). `Reduce` is the slice reducer over the three
  exported actions `setSessionId`, `addMessage` and `resetChat`. `Run`
  dispatches a sequence of actions. `ChatStore` is the same slice as a
  mutable object. Its field `persisted` is the single browser-storage slot
  (key `chatState`), and `ResetChat` empties that slot. Each `ChatStore`
  method is proved to take the store to `Reduce` of its old state. The
  lemmas state the slice's laws: newest message first, reset forgets
  everything and is idempotent, and the two setters touch disjoint fields.
- **The `App` component without rendering** (module `App`). `Satisfies`
  states the three upload rules: a provider is required, a file is required,
  and a non-blank secret is required for "chatgpt". `CheckFields` is the
  computation of `validateFields`. `UploadDisabled` is the upload button's
  `disabled` expression, proved against the same rules as `CheckFields`.
  `AskDisabled` is the ask button's, proved against the blankness of the
  question. `Screen` is a class holding the component's state: file, question,
  three loading flags, provider, secret input and error flags. It also holds
  the store. There is one method per event handler. Each async handler takes
  the backend's answer as a `Reply` parameter: `Ok(data)` for `status`
  true, `Rejected` for `status` false, or `TransportError` for a thrown
  error. It returns the request body it would have sent.
  `Consistent` (a transcript exists only while a session is active) is
  preserved by the handlers, while the matching view is on screen.

JavaScript's `String.prototype.trim` is modelled in module `JsString`,
because every "blank" test in the component is `!s.trim()`. Its whitespace
set is the WhiteSpace and LineTerminator productions of ECMA-262.

Module `Scenarios` drives a fresh store and screen through three user
stories. The stories are: a "chatgpt" upload without a secret is blocked;
an upload, two questions and an end of chat; a rejected upload.

Facts about the code that the model keeps as written:

- `App.jsx` imports and dispatches `setSecretCode` (src/App.jsx:21,
  src/App.jsx:83). The slice defines and exports no such action, and its
  state has no secret-code field (src/store/chatSlice.jsx:4-7, 13-26). The
  model keeps the slice exactly as written and gives that dispatch no state
  effect. That is what happens if the call fails into the `catch` block,
  which only shows a notification, or if the reducer ignores it. Under
  native ES modules there is a third outcome: importing a name that
  chatSlice.jsx does not export fails when the module is linked, and the
  component never loads. The model describes the component as if it loads.
- A failed upload clears provider and secret only when the server answers
  `status` false. A transport error keeps them (src/App.jsx:85-92).
- A new message is put at the front of the transcript, at index 0
  (src/store/chatSlice.jsx:17).
- A failed ask clears nothing: question, provider and secret stay
  (src/App.jsx:110-115).

## Model

| member | source | states |
|---|---|---|
| JsString.LeadingSpace | src/App.jsx:62 | the front run counted by trim is all whitespace and stops at the first non-whitespace character |
| JsString.TrailingSpace | src/App.jsx:62 | the back run counted by trim is all whitespace and stops at the last non-whitespace character |
| JsString.Trim | src/App.jsx:62 | `s.trim()` is empty exactly when `s` is blank; otherwise it starts and ends with non-whitespace; it is never longer than `s` |
| JsString.TrimIdempotent | src/App.jsx:62 | trimming an already trimmed string changes nothing |
| JsString.TrimRemovesOnlyWhitespace | src/App.jsx:62 | the trimmed string is a contiguous slice of `s` with only whitespace before and after it |
| ChatSlice.Reduce | src/store/chatSlice.jsx:13-22 | `setSessionId` replaces only the id; `addMessage` puts the message at index 0 above the unchanged old transcript and keeps the id; `resetChat` gives `{sessionId: null, messages: []}` (its storage effect is in `ChatStore.ResetChat`) |
| ChatSlice.Run | src/store/chatSlice.jsx:13-22 | dispatching a sequence of actions adds at most one message per action, and never shrinks the transcript when there is no `resetChat` |
| ChatSlice.RunKeepsOldTranscript | src/store/chatSlice.jsx:16-17 | without a `resetChat`, the old transcript stays unchanged at the bottom of the new one |
| ChatSlice.ReversedAt | src/store/chatSlice.jsx:16-17 | the reversed transcript has the same length, with position k holding message n-1-k |
| ChatSlice.RunConcat | src/store/chatSlice.jsx:13-22 | dispatching two action sequences in turn equals dispatching their concatenation |
| ChatSlice.AddAllPrepends | src/store/chatSlice.jsx:16-17 | a run of `addMessage` puts the new messages, in reverse call order, in front of the old transcript, and keeps the session id |
| ChatSlice.TranscriptNewestFirst | src/store/chatSlice.jsx:4-17 | from `initialState`, n `addMessage` calls give n messages with the last call's message at index 0, and no session id |
| ChatSlice.ResetForgetsHistory | src/store/chatSlice.jsx:19-21 | after any history of actions, `resetChat` gives `{sessionId: null, messages: []}` |
| ChatSlice.ResetIdempotent | src/store/chatSlice.jsx:19-21 | dispatching `resetChat` twice equals dispatching it once |
| ChatSlice.SessionAndTranscriptIndependent | src/store/chatSlice.jsx:13-17 | `setSessionId` keeps the messages, `addMessage` keeps the session id, and the two commute |
| ChatSlice.ChatStore.constructor | src/store/chatSlice.jsx:4-7 | a new slice holds no session id and an empty transcript |
| ChatSlice.ChatStore.SetSessionId | src/store/chatSlice.jsx:13-15 | replaces only the session id; transcript and storage slot unchanged |
| ChatSlice.ChatStore.AddMessage | src/store/chatSlice.jsx:16-18 | the transcript becomes `[m] + old transcript`; session id and slot unchanged |
| ChatSlice.ChatStore.ResetChat | src/store/chatSlice.jsx:19-22 | empties the storage slot and returns to `initialState`, whatever the prior state |
| App.Satisfies | src/App.jsx:54-65 | the three rules; the secret rule holds exactly when the source's test `provider === "chatgpt" && !secret.trim()` fails, so it never binds a provider other than "chatgpt" |
| App.CheckFields | src/App.jsx:50-68 | each error flag is raised exactly when its own rule fails (all start false); valid exactly when every rule holds, i.e. when no flag is raised |
| App.UploadDisabled | src/App.jsx:213-218 | the upload button is enabled exactly when no upload is in flight and the form passes `validateFields`' rules; it is disabled whenever `fileLoading` is set |
| App.AskDisabled | src/App.jsx:239 | the ask button is enabled exactly when no ask is in flight and the question is not blank |
| App.Screen.constructor | src/App.jsx:34-48 | initial component state: no file, empty question, provider and secret, no loading flag, no error flag |
| App.Screen.InSession | src/App.jsx:160-225 | the chat view rather than the upload form is shown exactly when `sessionId` is truthy: neither null nor the empty string |
| App.Screen.ValidateFields | src/App.jsx:50-69 | replaces all three error flags from the current inputs and reports validity; inputs untouched |
| App.Screen.HandleUpload | src/App.jsx:71-95 | invalid form: only error flags change, nothing is sent; valid: sends the file (secret attached iff non-empty); success stores the session id; `status` false clears provider and secret but keeps the file; transport error keeps them; `fileLoading` ends false; transcript untouched |
| App.Screen.HandleAsk | src/App.jsx:97-118 | blank question: nothing changes, nothing is sent; success puts `{question, answer}` at index 0 and clears the question; failure keeps question and transcript; session, provider and file always kept; `loading` ends false |
| App.Screen.HandleEndChat | src/App.jsx:120-141 | success resets the store, empties the storage slot and clears file, secret and provider; failure leaves store and inputs unchanged; `endChatLoading` ends false |
| App.Screen.HandleProviderChange | src/App.jsx:143-147 | sets the provider, clears the secret and the provider and secret error flags, keeps the file error flag |
| App.Screen.HandleFileChange | src/App.jsx:149-152 | sets the file and clears only the file error flag |
| App.Screen.ChangeSecret | src/App.jsx:186-191 | sets the secret; a non-blank value clears the secret error flag, a blank one keeps all flags |
| App.Screen.ChangeQuestion | src/App.jsx:233 | sets the question |
| Scenarios.MissingSecretBlocksUpload | src/App.jsx:54-72 | "chatgpt" with a file but no secret: upload sends nothing, only the secret flag is raised, no session |
| Scenarios.UploadAskAskEnd | src/App.jsx:71-141 | upload, two answered questions and a successful end of chat: transcript shows the second pair first; afterwards the store is initial and the slot empty |
| Scenarios.RejectedUploadKeepsFile | src/App.jsx:85-93 | a rejected upload clears provider and secret, keeps the file, and ends with the upload flag false |

## Left out

- HTTP calls and `API_BASE` (src/App.jsx:26, 80, 101, 123): network I/O. Each is replaced by the request body the handler builds and a `Reply` parameter.
- Notifications (`enqueueSnackbar`): UI side effects with no effect on state. Whether a successful upload shows success, or shows an error because `setSecretCode` is not a function, is therefore not modelled.
- JSX rendering, MUI components and the `fileInputRef` reset (src/App.jsx:131, 154-272): UI only. Which view is on screen is modelled only as `Screen.InSession` (truthiness of `sessionId`).
- Interleaving of the async handlers: each handler is one atomic transition. The loading flags are set and cleared inside it, so the model does not show a button disabled while its request is in flight.
- The `setSecretCode` dispatch (src/App.jsx:83): it refers to an action the slice does not define, so the model gives it no state effect.
- src/store/localStorage.jsx: wrappers over browser storage and JSON with swallowed exceptions. They are foreign calls. Storage is the abstract slot `ChatStore.persisted`, and the save/load round trip is not modelled.
- src/store/index.jsx: store wiring. The startup hydration and the `subscribe` listener are not modelled. That listener saves the state after every dispatch, so right after `resetChat` the slot would again hold the initial state. That is indistinguishable from an empty slot at the next start-up, because both hydrate to `initialState`.
- src/main.jsx: bootstrap and providers only.
- App.Screen.HandleUpload: the session id is whatever string the backend returns (`res.data.data`). A reply whose `data` is missing (undefined) is not modelled.
- App.Screen.HandleAsk: the answer is whatever string the backend returns (`res.data.data.answer`). A missing answer is not modelled.
