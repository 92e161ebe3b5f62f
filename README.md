# Magic Prompt: session state and request gateway

Magic Prompt is a single-page interface. The user writes a prompt, has a remote
service "up-level" (improve) it, and then asks follow-up questions in a chat
anchored to that prompt. This project models the client-side state behind it,
together with proofs about that state:

- the `App` component's state record (`prompt`, `upLeveledPrompt`, `chats`,
  `currentChat`, `showChat`, `followUpQuestion`, `isUpLeveling`) and the event
  handlers that change it: up-level, new chat, send follow-up, select a chat in
  the sidebar, and the two input `onChange` handlers;
- the `useApi` hook: an `isLoading` flag and an `error` slot around one request,
  and its rule for choosing the error text.

Layout:

- `wrappers.dfy`: `Option` (JavaScript `null`) and `Result` (a value or a thrown error).
- `js_string.dfy`: `String.prototype.trim`. It strips the code points that
  ECMA-262 calls WhiteSpace or LineTerminator. There are lemmas that
  characterise the result.
- `chats.dfy`: the `Chat` and `Message` values and the three list transforms
  the handlers use. These are the prepend spread, the message-append spread, and
  the `map` that replaces every chat with a given id. Each has lemmas.
- `app.dfy`: class `App.Session`. Each `useState` pair is a field and each
  handler is a method. `Valid()` is the invariant every handler keeps: the
  current chat is null or an element of `chats`; the chat view is shown exactly
  when there is a current chat; `isUpLeveling` is set exactly while an up-level
  is awaiting its response.
- `use_api.dfy`: `UseApi.ErrorMessage` and class `UseApi.RequestGateway`.

The network call is a parameter. For an up-level it is `Success(improvedPrompt)`
or `Failure`. For `sendRequest` it is `Resolved(data)` or `Threw(err)`. The
`Date.now()` id of a new chat is also a parameter, `freshId`. Nothing assumes
that ids are unique. When two chats share an id, a follow-up replaces both.

The up-level handler awaits its request. It is modelled as two steps:
`BeginUpLevel` runs up to the `await` and `CompleteUpLevel` runs after it.
`UpLevelPrompt` runs both steps with nothing in between. The handler closes
over the `prompt` and `chats` of the render it came from, so the completion
puts the new chat in front of the list as it was when the button was pressed.
The field `inFlight` records those captured values. As a result, a follow-up
sent while an up-level is pending is overwritten when the up-level completes
successfully. A failed up-level never assigns `chats`, so the follow-up is kept.
`App.FollowUpDuringUpLevelScenario` proves this for a concrete sequence of
events. `App.UpLevelThenFollowUpScenario` proves the ordinary sequence:
up-level, then follow-up.

Some things the code does not do:

- Up-level does not check for a blank prompt, and it does not clear the prompt
  on success.
- A follow-up appends only the user's message. It makes no request and appends
  no assistant reply.
- Selecting a chat takes the element that was clicked. There is no lookup by id.
- `useApi` is not used by `App`.

## Model

| member | source | states |
|---|---|---|
| `JsString.TrimStartSpec` | src/app.js:44 | the start of `trim` drops exactly the leading whitespace: the result is a suffix of the input, what it drops is all whitespace, and the result does not start with whitespace |
| `JsString.TrimEndSpec` | src/app.js:44 | the end of `trim` drops exactly the trailing whitespace: the result is a prefix of the input, what it drops is all whitespace, and the result does not end with whitespace |
| `JsString.TrimSpec` | src/app.js:44 | `trim` returns a contiguous slice of the input; everything outside the slice is whitespace; the slice neither starts nor ends with whitespace |
| `JsString.BlankIffAllWhitespace` | src/app.js:44 | `question.trim() !== ''` fails exactly when every character is whitespace, including for the empty string |
| `Chats.Prepend` | src/app.js:25 | `[newChat, ...chats]` is one longer, has the new chat at index 0 and the old chats after it in their old order, and holds exactly the new chat and the old elements |
| `Chats.WithUserMessage` | src/app.js:45-48 | the updated chat keeps `id`, `prompt` and `improvedPrompt`; its messages are the old messages followed by exactly one `{text, sender: user}` |
| `Chats.ReplaceByIdAt` | src/app.js:50 | the `map` keeps the length; at every position, an entry with the updated chat's id becomes the updated chat, and any other entry is unchanged |
| `Chats.ReplaceByIdKeepsIds` | src/app.js:50 | the id at every position, and so the order of the chats, is the same after the replacement |
| `Chats.ReplaceByIdContains` | src/app.js:50 | when some entry has the updated chat's id, the updated chat is in the result |
| `Chats.ReplaceByIdElements` | src/app.js:50 | every element of the result is the updated chat or an element of the old list |
| `Chats.ReplaceByIdNoMatch` | src/app.js:50 | when no entry has the updated chat's id, the list is returned as it was |
| `Chats.ReplaceByIdIdempotent` | src/app.js:50 | replacing a second time with the same chat changes nothing more |
| `Chats.FollowUpStaysListed` | src/app.js:45-50 | if the current chat is listed, the chat with the new message is listed after the replacement, so the current chat stays an element of `chats` |
| `Chats.FollowUpsInOrder` | src/app.js:47 | two follow-ups leave both questions at the end of the messages, in the order they were sent |
| `App.Session.constructor` | src/app.js:6-12 | the initial state: empty strings, no chats, no current chat, the prompt view, not up-leveling |
| `App.Session.EditPrompt` | src/app.js:88 | sets `prompt` and nothing else |
| `App.Session.EditFollowUpQuestion` | src/app.js:134 | sets `followUpQuestion` and nothing else |
| `App.Session.BeginUpLevel` | src/app.js:18-21 | only when not already up-leveling; sets `isUpLeveling`; sends the current prompt even when blank; captures `prompt` and `chats`; changes nothing else |
| `App.Session.CompleteUpLevel` | src/app.js:22-33 | on success, the new chat `{freshId, captured prompt, response, []}` is put in front of the captured list and becomes current; `upLeveledPrompt` is the response and `showChat` is true. On failure, `chats`, `currentChat`, `showChat` and `upLeveledPrompt` are unchanged. Either way `isUpLeveling` ends false and `prompt` is kept |
| `App.Session.UpLevelPrompt` | src/app.js:18-34 | for the whole handler: on success `chats` grows by exactly the new chat at index 0, with the old chats after it in order, and the new chat is current; on failure nothing but `isUpLeveling` changes, and it ends false |
| `App.Session.NewChat` | src/app.js:36-41 | clears `prompt` and `upLeveledPrompt`, sets `currentChat` to null and `showChat` to false, and leaves `chats` untouched |
| `App.Session.SendFollowUp` | src/app.js:43-53 | a blank question changes nothing. A non-blank question makes the current chat the old chat plus one user message and replaces every entry with its id. It also clears the input. With no current chat, the handler throws before any change; this cannot happen while the chat view is shown |
| `App.Session.SelectChat` | src/app.js:66-69 | the clicked element becomes current and the chat view is shown; `chats` is untouched |
| `UseApi.ErrorMessage` | src/useApi.js:18 | the error text is the server's message when that is present and non-empty, otherwise "An error occurred. Please try again."; it is never empty |
| `UseApi.RequestGateway.constructor` | src/useApi.js:5-6 | not loading, no error |
| `UseApi.RequestGateway.Begin` | src/useApi.js:9-10 | starting a request sets `isLoading` and clears `error` |
| `UseApi.RequestGateway.Complete` | src/useApi.js:12-20 | loading ends; success returns the data unchanged and leaves `error`; failure sets `error` to `ErrorMessage` and returns the same error to the caller |
| `UseApi.RequestGateway.SendRequest` | src/useApi.js:8-21 | a whole request: success returns the data and leaves `error` null; failure leaves a non-empty `error` and propagates the error |

## Left out

- `handleInsertPrompt` (src/app.js:14-16): it only writes to the console.
- `console.error` in the up-level handler (src/app.js:29): logging.
- Rendering is not modelled: JSX, class names, icons, the 30-character sidebar label and the highlighted sidebar entry (src/app.js:55-147).
- The HTTP transport (axios) and `Date.now()`: the outcome of each call and the new chat's id are parameters.
- React's scheduling is not modelled. Each handler, or each half of the up-level handler, is one atomic step. A handler's setters all receive plain values, so applying them in order gives the same state as React's batching.
- `App.Session.CompleteUpLevel`: a response whose `data` has no `improvedPrompt` field would store `undefined` in JavaScript; in the model the improved prompt is always a string.
- `UseApi.ErrorMessage`: only a string or a missing `message` is modelled. A truthy `message` that is not a string (a number or an object) is not.
- `UseApi.RequestGateway`: overlapping requests are possible through separate `Begin` and `Complete` calls, but nothing is claimed about them. `useCallback` memoisation has no effect on the state and is not modelled.
- `JsString.IsWhitespace`: JavaScript strings are UTF-16 code units, while a Dafny `char` is a Unicode scalar value, so a string holding a lone surrogate cannot be represented. No surrogate is whitespace for `trim`, so no modelled behaviour depends on this.
- `App.Session.SelectChat`: it takes the index of the clicked entry, not the rendered object. The sidebar is re-rendered after every change, so that object is `chats[i]`.
