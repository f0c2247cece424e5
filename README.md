# TradeBot chat component, modelled in Dafny

This project models the client component of TradeBot (`chat/src/App.js`). The component has two independent parts:

- a **conversation controller**. It fetches a greeting on mount. It sends each typed question to `/ask` and appends the question and then exactly one bot reply to the message log. The reply is an error text, the answer or a fixed connection-failure text.
- a **trade loader**. It fetches `/api/trades` once on mount. It renders a panel that shows a loading notice, a no-data notice or a table. The table's columns come from the first row.

Each `fetch` is split into two steps. The first issues the request. The second settles it with a tagged outcome: a parsed body with optional `answer`/`error` fields, or a transport failure.

Files:

- `jsvalues.dfy` (module `JsValues`) holds the JavaScript rules the component relies on: optional JSON fields, string truthiness, and `String.prototype.trim` over the ECMAScript whitespace set.
- `conversation.dfy` (module `Conversation`) holds the chat state and its steps as pure functions over values. Those steps are `Submit`, `SettleAsk`, `SettleGreeting`, `KeyDown` and `TypeInput`. It also holds the render predicates (send button, textarea, placeholder), runs of UI events under the disabled-control gating, and full question/answer cycles.
- `trade_table.dfy` (module `TradeTable`) holds the trade state, its settlement and the table panel.
- `app.dfy` (module `AppComponent`) holds the class `App`. Its fields are the component's state variables. Its methods are the handlers and effect callbacks, written step by step. Each method is proved against the matching step function.

The model follows the code as written. Behaviours worth knowing:

- `sendMessage` has no guard of its own against a second call while `loading`. Only the disabled textarea and button prevent it (`SubmitHasNoLoadingGuard`). This gating is the separate predicate `CanOccur`.
- An empty-string `error` counts as no error.
- The greeting *replaces* the log. A failed greeting has no catch and leaves the log unchanged. A greeting body without `answer` gives a bot message with text `undefined`.
- Input is accepted before the greeting lands. A question sent before the greeting arrives is wiped when it lands (`GreetingRaceDropsQuestion`).
- A trades body that is an object whose `error` is missing or `""` is stored as `trades` itself, and rendering the table then throws (`SettledPanel`).

## Model

| member | source | states |
|---|---|---|
| JsValues.Trim | chat/src/App.js:61 | `input.trim()` is never longer than the input (its exact shape is given by `TrimCutsBlanks`) |
| JsValues.TrimStartCutsBlankPrefix | chat/src/App.js:61 | trimming the start removes a prefix made only of whitespace and stops at the first other character |
| JsValues.TrimEndCutsBlankSuffix | chat/src/App.js:61 | trimming the end removes a suffix made only of whitespace and stops at the last other character |
| JsValues.TrimCutsBlanks | chat/src/App.js:61 | `input.trim()` is the slice of the input after its leading whitespace; whatever is cut on either side is whitespace; the result neither starts nor ends with whitespace |
| JsValues.TrimEmptyIffBlank | chat/src/App.js:61-62 | `input.trim()` is empty exactly when every character of the input is whitespace |
| JsValues.TrimKeepsTrimmed | chat/src/App.js:61 | a string without leading or trailing whitespace is its own trim |
| JsValues.TrimIdempotent | chat/src/App.js:61 | trimming twice is trimming once |
| Conversation.Submit | chat/src/App.js:60-67 | sending either changes nothing, or clears the input, raises `loading`, issues one request and appends one user message after the kept log; the greeting request is untouched |
| Conversation.BotReply | chat/src/App.js:76-82 | the message a settled question adds is always a bot message |
| Conversation.SettleAsk | chat/src/App.js:69-85 | settling appends one bot message after the kept log, clears `loading`, keeps the input and retires one request |
| Conversation.SettleGreeting | chat/src/App.js:53-56 | a parsed greeting body leaves a log of exactly one bot message; a failure leaves the log; input, `loading` and question requests are untouched |
| Conversation.KeyDown | chat/src/App.js:90-95 | any key other than Enter without Shift changes nothing |
| Conversation.InputEnabled | chat/src/App.js:119 | under the one-question discipline, the textarea is enabled exactly when no question is pending |
| Conversation.SendEnabled | chat/src/App.js:122 | the send button is enabled only when the textarea is and the input is not empty |
| Conversation.ShowsPlaceholder | chat/src/App.js:101-103 | the placeholder shows only while the textarea is enabled, and never once the log holds a message |
| Conversation.SubmitBlankIsNoop | chat/src/App.js:61-62 | with a blank input, sending changes nothing: log, input and `loading` stay the same and no request is issued |
| Conversation.SubmitAppendsQuestion | chat/src/App.js:61-67 | with a non-blank input, sending appends exactly one user message holding the trimmed question and keeps the earlier messages; it clears the input, raises `loading` and issues one request |
| Conversation.SubmitHasNoLoadingGuard | chat/src/App.js:60-67 | called while loading, sending still appends the trimmed question to the log and issues a second request |
| Conversation.SettleAskAppendsReply | chat/src/App.js:76-85 | settling appends exactly one bot message and clears `loading`. The text is "Error: " + error for a non-empty error (even when an answer is present), the connection-failure text for a transport failure, and otherwise the answer (`undefined` if absent) |
| Conversation.ErrorHidesAnswer | chat/src/App.js:76-80 | with a truthy `error`, the reply does not depend on `answer` and is never `undefined` |
| Conversation.ReplyUndefinedIff | chat/src/App.js:76-80 | the reply text is `undefined` exactly when the body has neither a truthy `error` nor an `answer` |
| Conversation.SettleGreetingReplacesLog | chat/src/App.js:53-56 | a parsed greeting body sets the log to exactly one bot message with its answer, discarding prior messages; a failed greeting leaves the log; `loading` is untouched |
| Conversation.KeyDownSubmitsIff | chat/src/App.js:90-95 | Enter without Shift sends; any other key, or Shift+Enter, changes nothing |
| Conversation.SendEnabledIff | chat/src/App.js:122 | the send button is enabled exactly when nothing is loading and the input is not all whitespace |
| Conversation.EnabledSendBegins | chat/src/App.js:122 | pressing an enabled send button always appends the trimmed question to the log, raises `loading` and issues a request |
| Conversation.PlaceholderGoneAfterSubmit | chat/src/App.js:101-103 | once a question is logged, the empty-chat placeholder does not show after any later run of events, loading or not |
| Conversation.LogNeverEmpties | chat/src/App.js:55-82 | no event empties a non-empty log, so once it holds a message the placeholder never shows again |
| Conversation.StepKeepsOneAskAtATime | chat/src/App.js:119-122 | every event the disabled controls let through keeps at most one question outstanding, with `loading` raised exactly while one is |
| Conversation.RunKeepsOneAskAtATime | chat/src/App.js:119-122 | the same holds for every run of such events |
| Conversation.MountedRunsKeepOneAskAtATime | chat/src/App.js:5-7 | from the mounted state, every run keeps at most one question outstanding, so each settled question leaves `loading` false |
| Conversation.GreetingSettlesOnce | chat/src/App.js:47-57 | once the greeting has settled, no run makes it pending again |
| Conversation.GreetingRaceDropsQuestion | chat/src/App.js:47-86 | a question sent before the greeting arrives is wiped by the greeting, leaving two bot messages in a row |
| Conversation.TranscriptShape | chat/src/App.js:65-82 | N turns contribute 2N messages, alternating user then bot |
| Conversation.CycleAppendsTurn | chat/src/App.js:60-86 | one typed, sent and settled question appends exactly its user message and then its bot reply, and leaves nothing loading |
| Conversation.CyclesAppendTranscript | chat/src/App.js:60-86 | N completed cycles append exactly the questions and replies in order after the earlier messages, and leave `loading` false |
| Conversation.RunTurnIsCycle | chat/src/App.js:60-86 | while nothing is loading, the controls let a turn's typing, click and settlement through, and running them is exactly the cycle |
| Conversation.RunTurnsIsCycles | chat/src/App.js:60-86 | while nothing is loading, running the events of N turns is exactly the N cycles |
| Conversation.GreetingThenCycles | chat/src/App.js:53-86 | from a state holding only the greeting with nothing loading, the events of N turns run as N cycles and give a log of length 1 + 2N that starts with the greeting and alternates bot/user |
| Conversation.MountedGreetingThenTurns | chat/src/App.js:47-86 | from mounting, a greeting body and then the events of N turns leave the greeting followed by each question and its reply: 1 + 2N messages alternating bot/user |
| TradeTable.SettleTrades | chat/src/App.js:15-33 | every outcome clears `loadingTrades`, and the rows either stay or become the body that arrived |
| TradeTable.Panel | chat/src/App.js:142-169 | the loading notice shows exactly while `loadingTrades`; a table has one body row per stored row and at least one |
| TradeTable.SettleTradesClearsLoading | chat/src/App.js:15-33 | every outcome clears `loadingTrades`; the rows are replaced only by a body whose `error` is falsy, and otherwise stay as they were |
| TradeTable.PanelTriState | chat/src/App.js:142-146 | the panel shows loading exactly while `loadingTrades`, no data exactly for an empty array, a table exactly for a non-empty array, and a throwing render for a stored non-array |
| TradeTable.TableShowsRowsInOwnOrder | chat/src/App.js:155-169 | the header is row 0's key list, and row i shows row i's own values in its own key order |
| TradeTable.ColumnsAlignIffSameKeys | chat/src/App.js:153-169 | every cell sits under the header of its own key exactly when all rows share row 0's keys in the same order |
| TradeTable.SettledPanel | chat/src/App.js:15-33 | after the load: a table exactly for a non-empty array; the no-data notice for an empty array, a truthy error or a failure; a throwing render for an error object whose `error` is missing or "" |
| TradeTable.SampleTable | chat/src/App.js:142-169 | two records with keys symbol and qty give a table with header symbol, qty and each record's values |
| AppComponent.App.constructor | chat/src/App.js:5-11 | empty input and log, not loading, no trades, `loadingTrades` true; the greeting and trades requests are issued |
| AppComponent.App.OnInputChange | chat/src/App.js:118-119 | the input becomes the typed text and nothing else changes |
| AppComponent.App.SendMessage | chat/src/App.js:60-67 | the new chat state is `Submit` of the old one: nothing changes for a blank input; otherwise the trimmed question is appended, the input cleared and `loading` raised |
| AppComponent.App.ResolveAsk | chat/src/App.js:69-85 | appends exactly the reply chosen by the error, answer or catch branch and clears `loading` |
| AppComponent.App.ResolveGreeting | chat/src/App.js:47-57 | a parsed body replaces the log by the greeting; a failure leaves it |
| AppComponent.App.HandleKeyDown | chat/src/App.js:90-95 | prevents the default action and sends exactly for Enter without Shift; otherwise nothing changes |
| AppComponent.App.ResolveTrades | chat/src/App.js:15-33 | the trade state becomes `SettleTrades` of the old one, and `loadingTrades` is false |
| AppComponent.App.Dispatch | chat/src/App.js:117-122 | delivers one event the enabled controls let through, and keeps at most one question outstanding |

## Left out

- The backend (`app.py`) is not part of this model. It is Flask routing, OpenAI client calls, CSV loading with pandas and static file serving. Only the shapes of its replies enter the model, as the outcome types.
- `fetch`, `res.json()`, promise scheduling and React's `useState`/`useEffect` machinery are replaced by explicit issue and settle steps. React's batching of the state updates inside one handler is modelled as sequential assignment, which reaches the same final state.
- A `null` JSON body is not a separate outcome. In all three flows it behaves like a transport failure, because reading a field of it throws into the same catch, or into no catch for the greeting.
- `answer` and `error` are modelled only as strings or absent. A non-string JSON value, with its own truthiness and string concatenation, is not modelled.
- Trade cells are modelled as their display text. A record is given as its key/value pairs in `Object.keys` enumeration order, so JavaScript's rule of listing integer-like keys first is assumed already applied.
- Trimming uses a fixed ECMAScript whitespace set rather than deriving it from the Unicode database.
- `scrollToBottom` and `messagesEndRef` are left out: they are a DOM side effect with no state.
- `console.log` and `console.error` calls, inline styles, CSS classes and the JSX layout are left out. This includes the "..." bubble, which is shown exactly while `loading`.
- Unmounting is not modelled. The component has no cleanup, and a request that settles after unmount is not represented.
