# Chat assistant controller of the test-analytics dashboard

The dashboard's AI-assistant panel (`src/components/Chatbot.tsx`) keeps a log
of user and bot messages, an input buffer and a `loading` flag. Sending a
question appends the question and a "🤔 Thinking..." placeholder, creates a
backend task and polls it until it is done or fails; the outcome then takes
the placeholder's place through `updateLastBotMessage`, which replaces the
last message when its text is the placeholder's and appends otherwise.

The model has four modules:

- `Wrappers`: the `Option` datatype.
- `Json`: parsed response bodies (objects list their properties in property
  enumeration order), JavaScript property reads, truthiness, `a || b`, object rest
  destructuring (`Omit`) and `JSON.stringify`, kept abstract as the subset type
  `Stringify` (the only fact used is that an object serialises to text opening
  with `{`).
- `JsString`: ECMAScript `trim` over the WhiteSpace and LineTerminator code
  points.
- `Chat`: messages, the `updateLastBotMessage` state updater
  (`PlaceholderUpdate`), the interpretation of one poll's response
  (`PollResolution`), and the class `Chatbot` whose fields are the component's
  state. Each asynchronous continuation is an event method driven from outside:
  `HandleSend` (up to the task-creation request, returning the question sent),
  `AskSettled` (the awaited creation settles), `PollSettled` (a scheduled poll
  settles; its result says whether another poll is scheduled) and `ClearChat`.
  A ghost field `task` (`Idle`, `Asking`, `Polling`) stands for the pending
  continuation; the class invariant `Valid` says that `loading` is set exactly
  while a task is outstanding, that the log is then either cleared or ends with
  the question and its placeholder, and that every placeholder follows a user
  message. Three client methods replay whole sessions.

Behaviour kept from the code:

- A failed task creation appends its failure message after the placeholder,
  which stays in the log (an orphaned placeholder). The model keeps this and
  proves it; so the log can hold more than one placeholder, and only the last
  one is ever resolved.
- The creation response's `task_id` and the poll response's `status` are read
  inside the `try`; a `null` body makes that read throw, so it ends in the
  failure message like a rejected request.
- Any status other than `"done"` and `"error"` (including a missing one, or a
  body that is not an object) schedules another poll, without bound.
- Clearing the chat leaves `loading` and the outstanding task alone; the
  result that ends the task is then appended to the empty log.
- The question sent is the raw, untrimmed input; only the blank test trims it.

## Model

| member | source | states |
|---|---|---|
| `Chat.PlaceholderUpdate` | src/components/Chatbot.tsx:23-34 | when the last message's text (not its sender) is the placeholder's, the new message replaces it: length unchanged, every earlier message unchanged; otherwise (also on an empty log) it is appended: length grows by one and the old log is a prefix; a message with any other text leaves the log no longer awaiting a result |
| `Chat.Chatbot.UpdateLastBotMessage` | src/components/Chatbot.tsx:23-34 | the log becomes the updater applied to the old log; nothing else changes |
| `JsString.TrimStart` | src/components/Chatbot.tsx:37 | the result is a suffix of the input, every removed character is white space and the result does not start with white space |
| `JsString.TrimEnd` | src/components/Chatbot.tsx:37 | the result is a prefix of the input, every removed character is white space and the result does not end with white space |
| `JsString.Trim` | src/components/Chatbot.tsx:37 | `input.trim()` is the contiguous piece of the input that starts where the leading white space ends, with only white space before and after it; it is empty exactly when every character of the input is ECMAScript white space, and otherwise starts and ends with a non-white-space character |
| `Chat.Chatbot.HandleSend` | src/components/Chatbot.tsx:36-48 | blank input: no state change and nothing sent; otherwise exactly the user message with the raw input and the placeholder are appended, the input is cleared, `loading` is set, the raw input is the question sent, and the invariant is kept |
| `Chat.Chatbot.AskSettled` | src/components/Chatbot.tsx:45-86 | task creation rejected (or a `null` body): the backend failure message is appended after the placeholder, which stays where it was, and `loading` is cleared; success: nothing visible changes, `loading` stays set and polling begins with the returned `task_id` |
| `Json.Lookup` | src/components/Chatbot.tsx:55 | a property read on an object is undefined exactly when no property has that key, and a defined read is one of the object's properties |
| `Json.Get` | src/components/Chatbot.tsx:55 | reading `task_id`, `status` or `error` (the only properties the component reads) of a non-null value is defined only on an object, and then agrees with the object's properties |
| `Json.Omit` | src/components/Chatbot.tsx:58 | the rest object holds exactly the properties whose key is not destructured, never more than the original |
| `Json.OmitAppend` | src/components/Chatbot.tsx:58 | the rest object keeps the properties' relative order: omitting distributes over concatenation |
| `Json.LookupOmit` | src/components/Chatbot.tsx:58 | on the rest object the destructured keys read as undefined and every other key reads as on the original |
| `Chat.DoneShowsCleanedResult` | src/components/Chatbot.tsx:57-62 | a result with status `"done"` is shown as the serialisation of the result without `task_id` and `status`, every other property kept |
| `Chat.ErrorShowsErrorOrBody` | src/components/Chatbot.tsx:64-68 | a result with status `"error"` is shown as the error prefix plus the serialisation of its `error` property when truthy, of the whole body otherwise |
| `Chat.PollResolution` | src/components/Chatbot.tsx:52-77 | a rejected poll, or a `null` body whose `status` read throws, resolves with the fetch failure message; another poll is scheduled exactly when the body was read and its status is neither `"done"` nor `"error"`; every resolution is a bot message whose text is not the placeholder's |
| `Chat.StillRunning` | src/components/Chatbot.tsx:70-72 | every non-null body whose status is neither `"done"` nor `"error"`, including a missing status and a body that is not an object, schedules another poll |
| `Chat.Chatbot.PollSettled` | src/components/Chatbot.tsx:52-77 | another poll is scheduled exactly when the status is neither `"done"` nor `"error"`, and then nothing changes; otherwise the resolution goes through `updateLastBotMessage`, `loading` is cleared and the task ends: it replaces the placeholder when the log was not cleared, and is the only message when it was |
| `Chat.Chatbot.ClearChat` | src/components/Chatbot.tsx:108 | the log becomes empty; input, `loading` and the outstanding task are unchanged, and the invariant is kept |
| `Chat.Chatbot.SetInput` | src/components/Chatbot.tsx:136 | the input buffer takes the typed text; nothing else changes |
| `Chat.Chatbot.constructor` | src/components/Chatbot.tsx:18-20 | the component starts with an empty log, empty input and `loading` clear |
| `Chat.DoneExample` | src/components/Chatbot.tsx:57-62 | a done result `{task_id, status, failures: 3}` is shown as the serialisation of `{failures: 3}` |
| `Chat.AnsweredQuestion` | src/components/Chatbot.tsx:36-79 | asking "What failed yesterday?", one pending poll and one done poll leave the question and the cleaned result in the log and `loading` clear |
| `Chat.UnreachableBackend` | src/components/Chatbot.tsx:80-85 | a failed task creation leaves the question, the orphaned placeholder and the failure message, and `loading` clear |
| `Chat.ClearedWhilePolling` | src/components/Chatbot.tsx:108 | clearing while a task is polled keeps `loading` set, and the failure that ends the task is appended to the empty log |

## Left out

- The `open` flag of the panel and all rendering (the floating button, the
  message list, the input area): presentation only.
- The timers: the 1000 ms delay before the first poll and the 3000 ms delay
  between polls are not modelled; each poll is an event delivered by the caller.
- The network: `axios` requests become the `Response` each event method
  receives; the request URLs (the API base and the task id in the path) are
  not modelled beyond recording the task id.
- `JSON.stringify(..., null, 2)`: its exact text (indentation, escaping,
  number formatting) is abstract; only an object's text opening with `{` is
  used.
- Chat.Chatbot.HandleSend: requires `loading` to be clear, as the Send
  button's `disabled={loading}` ensures; the Enter key can submit while a task
  is outstanding, and such overlapping submissions are not modelled.
- JSON property order is taken as the parsed value lists it; JavaScript
  enumerates integer-like keys first, in ascending order, and the model does not
  compute that order (only `JSON.stringify`, which is abstract, depends on it).
- JSON numbers are reals, so NaN and the sign of zero are not represented;
  parsed objects are taken to have distinct keys (`Json.Lookup` takes the first
  match).
- Strings are sequences of Unicode code points, not UTF-16 code units; the
  comparisons the component makes give the same answers either way.
- The rest of the repository (the dashboard page, the chart components, the UI
  wrappers, the API helper and the types) is fetch-and-render code and is not
  part of this model.
