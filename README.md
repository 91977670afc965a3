# Quiz conversation controller, modelled in Dafny

This project models the conversation controller of the `Quiz` chat component
(`src/components/Quiz.tsx`). The widget plays a short bot script:

1. It asks for a name. The component starts in step `name`.
2. It greets the user by that name and asks for a phone number (step `phone`).
3. It asks for an n8n webhook URL (step `webhook`).
4. It posts `{nome, telefone, timestamp, origem: "Quiz Lovable"}` to that URL.
5. When the post goes through, it thanks the user and ends (step `completed`).

A reset button starts the script over.

The project has five modules:

- `Text` (Text.dfy): JavaScript's `String.prototype.trim`. It removes the
  ECMAScript white-space and line-terminator code points from both ends.
- `QuizState` (QuizState.dfy): the data model (`Message`, `QuizData`,
  `Step`, the `dataToSend` payload) and each handler as a function from the
  state before an event to the state after it. A handler's hand-off to the
  browser comes back as the `effect` of a `Transition`. It is either the text
  given to the 1000 ms reply timer, the `fetch` request that was started, or
  whether the 1500 ms success timer was scheduled.
- `QuizComponent` (QuizComponent.dfy): class `Quiz`. It holds the six state
  fields of the component. Its methods update them in place, in the order
  the handlers do, and each method's contract ties the new state to the
  `QuizState` function of the same name.
- `EventLoop` (EventLoop.dfy): the component inside the browser. It tracks
  the pending timers, the outstanding `fetch` calls and the requests posted
  so far. An event is enabled whenever the page can produce it:
  - the form is rendered only while `step !== "completed"` (line 244);
  - the input is disabled while loading (line 257);
  - the send button is disabled while the trimmed input is empty or while
    loading (line 263);
  - the reset button exists only once completed (lines 244, 270-275);
  - timers and fetches may end in any order. This over-approximates the
    browser, which runs timers of equal delay in the order they were
    scheduled.
- `Scenarios` (Scenarios.dfy): whole conversations, event by event.

The `setTimeout` callbacks and the `await fetch(...)` are explicit events.
`sendToWebhook` is split at its `await`. `SendToWebhook` is the part before
it: the loading flag goes up and the request is built. `FinishSend` is the
`try`/`catch`/`finally` that runs once the call resolves or throws.
`OnSendSuccess` is the callback of the 1500 ms timer.

Two consequences of the code as written:

- Two sends of the same lead can be outstanding at once. The send button
  is disabled only while the trimmed input is empty or while `isLoading`
  (line 263). `isLoading` rises only when the 1000 ms reply timer runs
  (lines 64-66, 89-104). So the URL can be submitted twice before that, and
  both reply timers then start a POST. `Scenarios.TwoSendsInFlight`
  exhibits the trace. A second post can also follow a resolved one. The
  `finally` clears `isLoading` at once (line 153), but `completed` comes
  only when the 1500 ms timer runs (lines 126-131). Until then the step is
  still `webhook` and the input is enabled again.
- `resetQuiz` does not touch `isLoading`. `QuizState.ResetQuiz` keeps it, so
  it equals the initial state only when no send is outstanding
  (`QuizState.ResetRestoresInitial`).

## Model

| member | source | states |
|---|---|---|
| `Text.Trim` | src/components/Quiz.tsx:57-59 | `trim()` gives a string with no white space at either end. The result is empty exactly when the input is entirely white space. |
| `Text.TrimStartFacts` | src/components/Quiz.tsx:57-59 | Trimming the front removes only white space. It stops at the first other character and keeps the rest unchanged. |
| `Text.TrimEndFacts` | src/components/Quiz.tsx:57-59 | Trimming the back removes only white space. It stops at the last other character and keeps the rest unchanged. |
| `Text.TrimIsSlice` | src/components/Quiz.tsx:57-59 | The trimmed text is a contiguous piece of the input. Everything before and after it is white space. |
| `Text.TrimOfTrimmed` | src/components/Quiz.tsx:57-59 | A string with no white space at its ends is left unchanged. |
| `Text.TrimIdempotent` | src/components/Quiz.tsx:57-59 | Trimming twice gives the same result as trimming once. |
| `QuizState.Initial` | src/components/Quiz.tsx:21-33 | The initial state: the transcript is the single welcome bot message, the step is `name`, and nothing is loading. |
| `QuizState.AddMessage` | src/components/Quiz.tsx:45-53 | Exactly one message, with the given text and sender, is appended at the end. Earlier messages and all other state are unchanged. |
| `QuizState.OnInputChange` | src/components/Quiz.tsx:248 | Typing replaces the input text and changes nothing else. |
| `QuizState.HandleSubmit` | src/components/Quiz.tsx:55-67 | Input that is all white space changes nothing and schedules nothing. Any other input appends exactly one user message whose text is the trimmed input, which is non-empty and trimmed. It clears the input, hands the same text to the reply timer, and leaves the step and everything else unchanged. |
| `QuizState.GreetingText` | src/components/Quiz.tsx:73-76 | The reply in step `name` contains the name the user gave. |
| `QuizState.SuccessText` | src/components/Quiz.tsx:127-130 | The thank-you message after a send contains the recorded `nome`. |
| `QuizState.DataToSend` | src/components/Quiz.tsx:107-112 | The payload carries the record's `nome` and `telefone`, the origin tag "Quiz Lovable" and the clock reading. |
| `QuizState.SendToWebhook` | src/components/Quiz.tsx:103-123 | Starting a send raises `isLoading`. It starts one POST to the given URL whose body carries the record's `nome`, `telefone` and origin tag. Nothing else changes. |
| `QuizState.HandleBotResponse` | src/components/Quiz.tsx:69-101 | In `name`: `nome` becomes the input, `telefone` is kept, and one bot message is appended that contains the name. The step becomes `phone`. In `phone`: `telefone` becomes the input, `nome` is kept, one bot message is appended, and the step becomes `webhook`. In `webhook`: the URL is stored, one bot message is appended, loading starts, and one POST of the record to that URL begins. In `completed`: nothing changes. |
| `QuizState.FinishSend` | src/components/Quiz.tsx:124-155 | `isLoading` ends false in every case. If the fetch resolved, only the success timer is scheduled. If it threw, exactly one error bot message is appended and the step becomes `webhook`; nothing else changes. |
| `QuizState.OnSendSuccess` | src/components/Quiz.tsx:126-137 | The deferred success effect appends exactly one bot message that contains `nome`, and the step becomes `completed`. Nothing else changes. |
| `QuizState.ResetQuiz` | src/components/Quiz.tsx:157-170 | The transcript becomes exactly the welcome bot message and the step becomes `name`. `nome`, `telefone`, the URL and the input are cleared. `isLoading` is kept. |
| `QuizState.ResetRestoresInitial` | src/components/Quiz.tsx:157-170 | When no send is outstanding, reset gives back exactly the initial state. |
| `QuizComponent.Quiz.constructor` | src/components/Quiz.tsx:21-33 | The object starts in the initial state. |
| `QuizComponent.Quiz.AddMessage` | src/components/Quiz.tsx:45-53 | Appends in place, as `QuizState.AddMessage` says. |
| `QuizComponent.Quiz.SetCurrentInput` | src/components/Quiz.tsx:248 | Updates the input field in place, as `QuizState.OnInputChange` says. |
| `QuizComponent.Quiz.HandleSubmit` | src/components/Quiz.tsx:55-67 | Updates in place as `QuizState.HandleSubmit` says, and returns the text given to the reply timer. |
| `QuizComponent.Quiz.HandleBotResponse` | src/components/Quiz.tsx:69-101 | Updates in place as `QuizState.HandleBotResponse` says, and returns the POST it started, if any. |
| `QuizComponent.Quiz.SendToWebhook` | src/components/Quiz.tsx:103-123 | Raises `isLoading` and returns the request, as `QuizState.SendToWebhook` says. |
| `QuizComponent.Quiz.FinishSend` | src/components/Quiz.tsx:124-155 | Leaves `isLoading` false and otherwise updates as `QuizState.FinishSend` says. |
| `QuizComponent.Quiz.OnSendSuccess` | src/components/Quiz.tsx:126-137 | Updates in place as `QuizState.OnSendSuccess` says. |
| `QuizComponent.Quiz.ResetQuiz` | src/components/Quiz.tsx:157-170 | Resets in place as `QuizState.ResetQuiz` says. |
| `EventLoop.Start` | src/components/Quiz.tsx:21-33 | The page's first render is the component's initial state, in step `name`, with nothing pending, outstanding or posted. The reachability invariant already holds there. |
| `EventLoop.Enabled` | src/components/Quiz.tsx:244-275 | Typing and submitting are possible only while the form is rendered (`step !== "completed"`) and the input is not disabled by `isLoading`. Submitting also needs a non-blank input, since the send button is disabled otherwise. Reset is possible only in `completed`, where the reset button is rendered. Pending timers and outstanding fetches may end at any time. |
| `EventLoop.Apply` | src/components/Quiz.tsx:55-170 | Every event except reset keeps the transcript as a prefix of the new one. Posted requests are never withdrawn, and each event posts at most one. |
| `EventLoop.TranscriptOnlyGrows` | src/components/Quiz.tsx:45-53 | Across any sequence of events without a reset, the transcript only grows at its end. Earlier messages are never changed. |
| `EventLoop.PostedOnlyGrows` | src/components/Quiz.tsx:103-123 | Across any sequence of events, requests once posted stay posted, in order. |
| `EventLoop.ReachableFromStart` | src/components/Quiz.tsx:21-170 | The invariant holds after every event order the page allows. The transcript begins with the welcome message. `isLoading` implies an outstanding fetch. Every pending reply holds non-empty trimmed text. In `name`, the record is empty. In `phone`, `nome` is non-empty and trimmed and `telefone` is empty. Every posted body carries the origin tag. |
| `Scenarios.RunAnswer` | src/components/Quiz.tsx:55-101 | Typing, submitting and letting the reply timer run gives the step, record, URL and loading flag that `handleBotResponse` produces for the trimmed text, and clears the input. The transcript gains exactly two messages at its end: the user message with the trimmed text, then the bot reply `handleBotResponse` posts. Earlier messages are unchanged. In `webhook`, the answer also posts exactly one request carrying the record. |
| `Scenarios.RunConfirm` | src/components/Quiz.tsx:124-154 | A send that resolves, followed by the success timer, ends in `completed` with `isLoading` false. The last message thanks the user by name. |
| `Scenarios.ReachWebhookStep` | src/components/Quiz.tsx:69-87 | Answering " Ana " and then "11999998888" reaches `webhook` with the record `{nome: "Ana", telefone: "11999998888"}` and nothing posted. |
| `Scenarios.HappyPath` | src/components/Quiz.tsx:55-155 | A whole conversation ends in `completed` with the record `{Ana, 11999998888}` and exactly one posted request. That request goes to the typed URL with those values and the origin tag. The last message is the thank-you for "Ana". |
| `Scenarios.RunSubmitTwice` | src/components/Quiz.tsx:55-67 | In `webhook`, submitting the URL twice before the reply timer runs starts two POSTs of the same record. |
| `Scenarios.TwoSendsInFlight` | src/components/Quiz.tsx:89-123 | One conversation can have two outstanding POSTs of the same lead at once. |

## Left out

- Rendering, CSS, icons and `scrollToBottom` (lines 37-43, 172-280). The
  model keeps only which controls are rendered and enabled, in
  `EventLoop.Enabled`.
- The `fetch` call itself (lines 116-123) is a foreign network call. Its
  outcome (resolved or threw) is an event parameter. Under `no-cors` the
  response is never inspected, so nothing more is modelled.
- The 1000 ms and 1500 ms delays are not modelled as durations. Each timer
  is a pending callback that may run at any later point, in any order
  relative to other events.
- `toast` notifications and `console.log`/`console.error` are side channels
  and are left out.
- All clock reads in one handler (`Date.now()` ids, `new Date()`
  timestamps, `toISOString()`) are one opaque `Instant` parameter. The
  ISO-8601 text and `JSON.stringify` are not modelled. Nothing claims that
  ids are unique: two readings may coincide.
- React semantics are not modelled. Each handler reads the state current
  when its event fires. In the source, a timer callback reads the state of
  the render that scheduled it. The two differ whenever `step` or
  `quizData` changes between the render that created a callback and the
  callback's run. That happens with several reply timers pending, after a
  reset, or when an outstanding fetch throws (setting step `webhook`) while
  a reply timer is pending. The success message also reads the record of
  the render where the URL was submitted (line 128), so after a reset it
  thanks the old `nome` in the source and the cleared one in the model.
