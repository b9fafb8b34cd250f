# ChatBox client state machine

A Dafny model of the client-side chat state machine of the CareerChatbot
front end: the `ChatBox` React component keeps the user's session list, the
active session, one page of that session's messages with the total count,
the composer's input, the `loading`/`typing` indicators and one error slot.
It updates them in six handlers: list sessions, load a page of messages,
send a message with an optimistic placeholder, create a session, select a
session, and "Load More".

The network is taken out. Every awaited `fetch` becomes a `Response<T>`
parameter: `Ok(body)`, `NotOk` (the response had `res.ok` false, and the
handler throws its own fixed message), or `Threw(message)` (the promise
rejected, or the body was not JSON). Each handler returns the requests it
sent (`Request`), so "issues no request" can be stated. `Date.now()`, the
ISO timestamp and the answer to `prompt()` are parameters too.

Files and modules:

- `chat_types.dfy`, module `ChatTypes`: messages, sessions, responses,
  requests, and the constants (`USER_ID = 1234`, `PAGE_SIZE = 10` and the
  four error texts).
- `js_text.dfy`, module `JsText`: `String.prototype.trim` over the
  ECMAScript whitespace and line-terminator code points, and the blank-input
  test that `!s.trim()` performs.
- `chat_state.dfy`, module `ChatState`: the component's state as one value
  (`State`). Each handler is a function from the state before it to its
  `Transition` (the state after it and the requests it sent). These are the
  reference definitions.
- `chat_box.dfy`, module `ChatBoxComponent`: class `ChatBox`, whose fields
  are the component's state hooks. Its methods update the fields step by
  step, in the source's order. Each method is proved to leave exactly the
  state, and return exactly the requests, that its `ChatState` function
  gives.
- `chat_events.dfy`, module `ChatEvents`: UI events. Each event runs its
  handler and then, when `activeSession` or `page` changed, the effect that
  loads the current page. React compares these dependencies by object
  identity, so the state is paired with one flag (`Component.activeListed`)
  that says whether the object held as `activeSession` is one of the objects
  in `sessions`. A click on a sidebar entry passes that entry's object. The
  module also defines runs of events from the initial state, proves the
  invariants that every run keeps, and states the end-to-end scenarios.

Behaviour of the code worth knowing:

- An error is not cleared when a request starts. It is cleared only when a
  call succeeds, and overwritten when it fails (`BeginSend` keeps the old
  error while the POST is in flight).
- After a successful POST, a failing page refetch empties the window,
  optimistic entry included. The error still ends `null`, because
  `fetchMessages` and `fetchSessions` catch their own failures
  (`SendHelloRefetchFails`). The optimistic entry survives only a failed POST.
- The window is not bounded by `(page + 1) * PAGE_SIZE`. The optimistic
  append can push a full page to `PAGE_SIZE + 1` entries
  (`OptimisticEntryCanOverflowPage`). While the service honours the `limit`,
  every entry past the first `PAGE_SIZE` is such an optimistic entry of a
  failed send (`RunKeepsOverflowOptimistic`).
- Selecting the session that is already active is not a no-op. On the first
  page it empties the window. Whether the page is loaded again depends on
  object identity. If no session listing has succeeded since that session
  was selected (a double click is the usual case), the clicked object is the
  one held, neither effect dependency changed, and nothing is loaded
  (`ReselectOnFirstPageClearsWindow`). After a send whose session refetch
  succeeded, the list holds new objects. Clicking the active session then
  passes a new, equal object, and its page 0 is loaded
  (`SendWithListingUnlistsActive`, `ReselectAfterListingReloads`).
- Creating a session does not reset `totalMessages`. The count is replaced
  when the effect's page load for the new session completes.

## Model

| member | source | states |
|---|---|---|
| `ChatState.CanLoadMoreIffNotLastPage` | src/app/components/ChatBox.tsx:149 | `canLoadMore` (`ChatState.CanLoadMore`) holds exactly when the current page is not the last of the `ceil(total / PAGE_SIZE)` pages of the history |
| `ChatState.LoadMore` | src/app/components/ChatBox.tsx:277 | the page grows by one and nothing else changes; while the button is shown, the new page starts within the history |
| `ChatState.SetInput` | src/app/components/ChatBox.tsx:293 | `input` becomes the typed text and nothing else changes; a send is then possible exactly when that text is not blank and a session is active |
| `ChatState.CanSend` | src/app/components/ChatBox.tsx:94 | the guard passes exactly when `input.trim()` is non-empty and a session is active |
| `ChatState.PromptedTitle` | src/app/components/ChatBox.tsx:126 | the title is never empty: the prompt's answer if it is a non-empty string, otherwise "New session" |
| `ChatEvents.PagingThroughTwentyFive` | src/app/components/ChatBox.tsx:149 | with 25 messages, Load More is shown at pages 0 and 1, is hidden at page 2, and a click there does nothing |
| `ChatState.SelectSession` | src/app/components/ChatBox.tsx:191-196 | selecting a session makes it active, sets page 0 and empties the window; sessions, total, error, input and indicators are untouched |
| `ChatEvents.SwitchLoadsFirstPageOfNewSession` | src/app/components/ChatBox.tsx:56-58 | switching to another session issues exactly one request, for that session's page 0, and the window ends as that response's page (no message from the previous session survives) |
| `ChatEvents.ReselectOnFirstPageClearsWindow` | src/app/components/ChatBox.tsx:191-196 | clicking the very object held as the active session (no listing has replaced it) on page 0 empties the window, changes nothing else and issues no request |
| `ChatEvents.ReselectAfterListingReloads` | src/app/components/ChatBox.tsx:56-58 | clicking the active session after a listing replaced its object passes a new, equal object: page 0 of that session is requested and becomes the window |
| `ChatEvents.SendWithListingUnlistsActive` | src/app/components/ChatBox.tsx:114-115 | a send whose POST and session refetch succeed replaces the list by the refetched one and keeps the held active session, which is then no longer one of the listed objects |
| `ChatEvents.LoadMoreLoadsNextPage` | src/app/components/ChatBox.tsx:274-281 | a shown Load More advances the page by one and replaces the window with the next page of the active session, the only request sent |
| `ChatState.FetchSessions` | src/app/components/ChatBox.tsx:60-71 | one listing request; success replaces the list wholesale and clears the error; the first session becomes active only if the list is non-empty and none was active; failure keeps list and selection and stores the error text; loading and everything else untouched |
| `ChatState.FetchMessages` | src/app/components/ChatBox.tsx:73-91 | one page request with `limit = PAGE_SIZE`; success replaces the window by the returned page (`[]` if absent) and the total (0 if absent) and clears the error; failure empties the window, zeroes the total and stores the error text; loading ends false either way |
| `ChatState.BeginSend` | src/app/components/ChatBox.tsx:95-105 | before the POST exactly one message is appended at the end, with sender user, status sent, the untrimmed input, the client id and timestamp; earlier messages unchanged; input cleared; loading and typing set; the error kept |
| `ChatState.SendMessage` | src/app/components/ChatBox.tsx:93-123 | blank input or no active session: no state change, no request; a failed POST leaves the optimistic message last and sets the error; a successful POST ends with the refetched page (empty if that refetch failed), the refetched list, and a null error whatever the refetches did; typing and loading end false |
| `ChatEvents.SendHelloPostFails` | src/app/components/ChatBox.tsx:107-122 | "Hello" in session 1 with a failing POST: the window ends with the optimistic "Hello" (status sent) last, the error is "Failed to send message", only the POST was sent |
| `ChatEvents.SendHelloRefetchFails` | src/app/components/ChatBox.tsx:113-116 | "Hello" in session 1, POST accepted, page refetch failing: the window ends empty, the total 0, the error null; POST, page and session requests sent in that order |
| `ChatEvents.OptimisticEntryCanOverflowPage` | src/app/components/ChatBox.tsx:104 | a failed send on a full first page leaves `PAGE_SIZE + 1` messages on page 0 |
| `ChatEvents.StepKeepsOverflowOptimistic` | src/app/components/ChatBox.tsx:81 | an event whose page responses respect `limit` keeps every window entry past the first `PAGE_SIZE` a user message with status sent |
| `ChatEvents.RunKeepsOverflowOptimistic` | src/app/components/ChatBox.tsx:97-104 | while every page response respects `limit`, any sequence of events keeps the window's entries past the first `PAGE_SIZE` optimistic ones |
| `ChatState.BlankTitleOnlyFromWhitespace` | src/app/components/ChatBox.tsx:126-127 | the title is blank exactly when the prompt returned a non-empty, whitespace-only string; a cancelled or empty prompt gives "New session" |
| `ChatState.StartNewSession` | src/app/components/ChatBox.tsx:125-147 | a blank title changes nothing and sends nothing; otherwise one creation request; success prepends the new session, makes it active, sets page 0, empties the window and clears the error; failure changes only the error and leaves loading false |
| `JsText.TrimStart` | src/app/components/ChatBox.tsx:94 | the result is a suffix of the input after a whitespace-only prefix, and starts with a non-whitespace character when non-empty |
| `JsText.TrimEnd` | src/app/components/ChatBox.tsx:94 | the result is a prefix of the input before a whitespace-only suffix, and ends with a non-whitespace character when non-empty |
| `JsText.TrimEmptyIffBlank` | src/app/components/ChatBox.tsx:94 | `s.trim()` is empty exactly when every character of `s` is whitespace, the test both guards use |
| `ChatEvents.WithMessagesEffect` | src/app/components/ChatBox.tsx:56-58 | when a dependency changed and a session is active, exactly one more request, for that session's current page, whose response becomes the window; otherwise nothing changes; requests stay for the shown page |
| `ChatEvents.OnMount` | src/app/components/ChatBox.tsx:52-58 | every request is the user's, and every page request is for the session and page shown afterwards |
| `ChatEvents.OnSessionClick` | src/app/components/ChatBox.tsx:188-196 | every request is the user's, and every page request is for the session and page shown afterwards |
| `ChatEvents.OnLoadMore` | src/app/components/ChatBox.tsx:274-281 | every request is the user's, and every page request is for the session and page shown afterwards |
| `ChatEvents.OnSend` | src/app/components/ChatBox.tsx:93-123 | every request is the user's, and the page refetch is for the session and page shown afterwards |
| `ChatEvents.OnNewSession` | src/app/components/ChatBox.tsx:125-147 | every request is the user's, and every page request is for the new session's page shown afterwards |
| `ChatEvents.Step` | src/app/components/ChatBox.tsx:56-58 | for every event, every request carries the one user id, and every page request asks for `PAGE_SIZE` messages of the session and page shown once the event is handled |
| `ChatEvents.StepPreservesInv` | src/app/components/ChatBox.tsx:25-33 | every event, with its effect, keeps the invariant: settled indicators, and no messages, total or page while no session is active |
| `ChatEvents.RunPreservesInv` | src/app/components/ChatBox.tsx:25-33 | every sequence of events keeps that invariant |
| `ChatEvents.ReachableStatesKeepInv` | src/app/components/ChatBox.tsx:25-33 | every state reached from the initial hook values keeps that invariant |
| `ChatEvents.ActiveSessionPersists` | src/app/components/ChatBox.tsx:66 | once a session is active, some session stays active after any sequence of events |
| `ChatEvents.LoadMoreNeedsSession` | src/app/components/ChatBox.tsx:149 | Load More can only be shown while a session is active |
| `ChatEvents.MountSelectsFirstSession` | src/app/components/ChatBox.tsx:52-58 | with sessions "Career" (1) and "Resume" (2) and none active, mounting makes session 1 active and loads its page 0 |
| `ChatBoxComponent.ChatBox.constructor` | src/app/components/ChatBox.tsx:25-33 | the fields start at the hooks' initial values |
| `ChatBoxComponent.ChatBox.SelectSession` | src/app/components/ChatBox.tsx:191-196 | the fields end as `ChatState.SelectSession` gives |
| `ChatBoxComponent.ChatBox.LoadMore` | src/app/components/ChatBox.tsx:277 | `page` grows by one, nothing else changes |
| `ChatBoxComponent.ChatBox.SetInput` | src/app/components/ChatBox.tsx:293 | `input` becomes the typed text, nothing else changes |
| `ChatBoxComponent.ChatBox.FetchSessions` | src/app/components/ChatBox.tsx:60-71 | the fields and the requests sent are those of `ChatState.FetchSessions` |
| `ChatBoxComponent.ChatBox.FetchMessages` | src/app/components/ChatBox.tsx:73-91 | the fields and the requests sent are those of `ChatState.FetchMessages` |
| `ChatBoxComponent.ChatBox.MessagesEffect` | src/app/components/ChatBox.tsx:56-58 | with a session active, the fields and the requests sent are those of loading its current page; without one, nothing happens |
| `ChatBoxComponent.ChatBox.BeginSend` | src/app/components/ChatBox.tsx:95-105 | the fields end as `ChatState.BeginSend` gives: the optimistic message appended, input cleared, indicators set |
| `ChatBoxComponent.ChatBox.SettleSend` | src/app/components/ChatBox.tsx:107-122 | the fields and the requests sent are those of `ChatState.SettleSend`: the POST, then on success the page and session refetches, and the indicators cleared |
| `ChatBoxComponent.ChatBox.SendMessage` | src/app/components/ChatBox.tsx:93-123 | the fields and the requests sent are those of `ChatState.SendMessage`, with the POST, page refetch and session refetch awaited in that order |
| `ChatBoxComponent.ChatBox.StartNewSession` | src/app/components/ChatBox.tsx:125-147 | the fields and the requests sent are those of `ChatState.StartNewSession` |

## Left out

- Rendering, CSS classes, the dark-mode toggle of the document's class list (lines 40-45), scrolling to the newest message (lines 48-50) and the sidebar open/close flag are presentation and are not modelled.
- `fetch`, the backend URL, URL construction, headers, JSON encoding and decoding, and the `res.ok` test are HTTP I/O. They are reduced to the `Response` outcome and the `Request` values. A body of the wrong shape (for example a listing that is not an array) is not modelled.
- `Date.now()`, `new Date().toISOString()` and `prompt()` are nondeterministic foreign calls. Their values are parameters.
- React's asynchronous scheduling, batched state updates, stale closures and out-of-order completion of requests in flight are not modelled. Each handler runs atomically to its end, so the states in between (for example `loading` while a page loads) are only visible in `BeginSend`.
- Object identity is tracked only as far as the effect needs it: `Component.activeListed` says whether the held active session is an object of the list. A click on entry `i` is taken to pass the held object exactly when the held object is listed and equal to entry `i`, so a listing with two equal session values at different positions is not distinguished. Session ids make such duplicates unlikely.
- A click on a sidebar position past the end of the list does nothing, because only rendered entries can be clicked.
- The `disabled={loading || !activeSession}` guards on the input and the Send button (lines 295, 299) are not modelled. Between events `loading` is always false, and `sendMessage` has its own session guard. Typing without an active session is therefore allowed in the model.
- `totalMessages` and the listing's `total` are `nat`: the service is assumed to report a non-negative count.
- `JsText.IsBlank` is the all-whitespace test rather than a call to `Trim`. `JsText.TrimEmptyIffBlank` proves that the two agree.
