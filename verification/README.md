# Knowledge Inbox client — Dafny model

A model of the client-side logic of the Knowledge Inbox web client. The client
lets a user add notes and URLs to a knowledge base and ask an assistant
questions about it. Almost everything in it is rendering or HTTP. What is
modelled is the logic that decides what happens:

- **URL page** (`Urls`): `normalizeAndValidateUrl` trims the input, refuses
  blank input, adds `https://` when there is no `http://`/`https://` prefix,
  and hands the result to the URL parser. The parser is the basic URL parser
  of the WHATWG URL Standard, section 4.4. It is a parameter of the model
  (`parse: string -> UrlParse`). `UrlsPage` holds the `input` and
  `validationError` state. Its methods are submit, Enter, edit and the
  ingest mutation's `onSuccess`/`onError`.
- **Chat page** (`Home`): `HomePage` holds `input` and the conversation id
  read from the route. Its methods are submit, Enter and New Chat, and the
  query's `onSuccess`, which picks the cache keys to invalidate and whether
  to navigate. Pure functions cover the rendered conversation title, the
  header, the transcript order with the `Thinking...` indicator, and the
  citation labels of `MessageBubble`.
- **Notes page** (`Notes`): `NotesPage` holds `input`. Its methods are submit
  (blank guard, ingest of the raw input, input cleared in `finally`), Enter,
  and the ingest's `onSuccess` invalidation.
- **Sidebar** (`AppSidebar`): `formatChatPreview`, the
  `conversationsData?.data || []` fallback, and the Recent Chats links.
- Shared pieces: `JsStrings` (`String.prototype.trim` over ECMAScript's
  whitespace set, and truthiness of optional strings), `JsNumbers` (printing
  an id into a route, with a reference decimal reader), and `PageEffects`
  (query keys, the conversation id, effects, the submit chord, and the
  submit-button condition shared by the three pages).

Handlers do not call the network, the router or the query cache. They return
a `seq<Effect>` naming the call, navigation or invalidation they trigger.
Pending flags and ingest or query outcomes are inputs.

Behaviour kept exactly as the code has it:

- Home's `handleSubmit` has no pending check. Only the Ask button is disabled
  while a query runs, so Enter issues a second query. `Home.EnterWhileQueryPending`
  walks through that sequence.
- A navigation keeps the same page and its input; only the id changes
  (`Home.HomePage.OnRouteChange`). `Home.FollowUpJoinsNewConversation` shows
  that once the page has read the route of the conversation a first query
  created, the next question is asked in that conversation.
- With a conversation id but no messages, the header reads `undefined`:
  `undefined + ''` is the string `"undefined"`, so the `'Chat'` fallback does
  not apply.
- The conversation id is truthy-tested, so an id of `0` or `NaN` counts as
  no conversation.
- The URL page's Enter handler ignores Shift. Its scheme test is
  case-sensitive, so `HTTP://x` and `ftp://x` are prefixed with `https://`
  instead of being kept or refused.

The URL check is only the prefix step and the parser: there is no space or
hostname check, and an error is shown on the first submit. A note of any
non-blank length is sent. The chat page keeps no local copy of a question
while it is pending and cannot cancel a query.

## Model

| member | source | states |
|---|---|---|
| JsStrings.TrimStart | src/pages/urls.tsx:40 | result is a suffix whose dropped prefix is all whitespace and which does not start with whitespace |
| JsStrings.TrimEnd | src/pages/urls.tsx:40 | result is a prefix whose dropped suffix is all whitespace and which does not end with whitespace |
| JsStrings.Trim | src/pages/urls.tsx:40 | result is a slice of the input with only whitespace on either side, and neither of its ends is whitespace |
| JsStrings.TrimSlices | src/pages/urls.tsx:40 | cutting leading then trailing whitespace leaves a trimmed slice with only whitespace on either side |
| JsStrings.BlankIffAllWhitespace | src/pages/home.tsx:143 | `!s.trim()` holds exactly when every character of `s` is whitespace |
| JsStrings.TrimmedIsFixed | src/pages/urls.tsx:40 | trimming a string whose ends are not whitespace returns it unchanged |
| JsStrings.TrimIdempotent | src/pages/urls.tsx:40 | trimming twice is the same as trimming once |
| JsNumbers.NatToString | src/pages/home.tsx:130 | a non-empty string of decimal digits without a leading zero |
| JsNumbers.IntToString | src/pages/home.tsx:130 | non-empty; starts with a minus sign exactly for negative ids; no leading zero after the sign unless the value is 0 |
| JsNumbers.NatToStringRoundTrip | src/pages/home.tsx:130 | the digits printed for `n` have the value `n` |
| JsNumbers.IntToStringRoundTrip | src/pages/home.tsx:130 | the reference decimal reader reads a printed id back as that id |
| JsNumbers.IntToStringInjective | src/components/app-sidebar.tsx:100 | distinct ids print differently |
| PageEffects.ConversationPath | src/pages/home.tsx:130 | the route is `/?conversation=` followed by the printed id, and its parameter reads back as the id |
| PageEffects.ConversationPathInjective | src/components/app-sidebar.tsx:97-100 | distinct ids have distinct routes |
| PageEffects.SubmitButtonEnabled | src/pages/notes.tsx:120 | the Add/Ask button is enabled iff nothing is pending and the input has a non-whitespace character |
| PageEffects.PendingDisablesSubmit | src/pages/home.tsx:243 | while a request is pending the submit button is disabled whatever the input |
| Urls.WithScheme | src/pages/urls.tsx:46-49 | the result has an http or https prefix; a schemed string is kept, any other is prefixed with `https://`; trimmed input stays trimmed |
| Urls.NormalizeAndValidate | src/pages/urls.tsx:39-60 | exactly one of url and error is set; `Please enter a URL` exactly for blank input; a URL is returned exactly when the input is not blank and the parser accepts the candidate with protocol `http:` or `https:`; a parser throw gives `Invalid URL format`; a non-http protocol gives the scheme error; a returned URL starts with `http://` or `https://`, is trimmed, and is the trimmed input, prefixed with `https://` when it had no scheme |
| Urls.NormalizeIdempotent | src/pages/urls.tsx:39-60 | validating a URL that validation returned gives the same URL and no error |
| Urls.SchemeErrorNeedsUnfaithfulParser | src/pages/urls.tsx:47-55 | with a parser that reports the scheme the string already carries, the scheme-mismatch error never occurs |
| Urls.UrlsPage.constructor | src/pages/urls.tsx:63-64 | empty input and no validation error |
| Urls.UrlsPage.HandleSubmit | src/pages/urls.tsx:113-126 | invalid input sets the validation error and issues no ingest; valid input clears the error and ingests the normalised URL, not the raw input; input unchanged |
| Urls.UrlsPage.HandleKeyDown | src/pages/urls.tsx:128-133 | Enter acts as submit whatever Shift is; other keys change nothing |
| Urls.UrlsPage.HandleInputChange | src/pages/urls.tsx:135-140 | input becomes the new value and any validation error is cleared |
| Urls.UrlsPage.OnIngestSettled | src/pages/urls.tsx:92-110 | `success: true` clears input and error and invalidates `['urls','URL']`; `success: false` or a failed call changes nothing |
| Home.ViewCitation | src/pages/home.tsx:53-83 | label is the title if non-empty, else the URL if non-empty, else `Unknown source`, so never empty; a link exactly when the URL is non-empty; source type shown exactly when non-empty |
| Home.ViewMessage | src/pages/home.tsx:31-53 | user messages are right-aligned; Sources are shown iff the message is not the user's and has citations, and then list every citation in order |
| Home.Transcript | src/pages/home.tsx:204-224 | loading or start notice, or one bubble per server message in order; `Thinking...` appears last and only while the query is pending |
| Home.ConversationTitle | src/pages/home.tsx:182-184 | `"undefined"` with no messages; otherwise the first message's content, cut to 60 characters plus `...` exactly when longer than 60 |
| Home.Header | src/pages/home.tsx:188-192 | shown iff the conversation id is truthy; shows the conversation title whenever that is non-empty; never empty; `undefined` for no messages; `Chat` only for an empty first message or one reading `Chat` |
| Home.HomePage.constructor | src/pages/home.tsx:99-109 | empty input; the id from the route |
| Home.HomePage.OnRouteChange | src/pages/home.tsx:103-109 | after a navigation the page reads the new route's id and keeps its input |
| Home.HomePage.HandleNewChat | src/pages/home.tsx:138-140 | one push navigation to `/` |
| Home.HomePage.HandleInput | src/pages/home.tsx:164-170 | input becomes the typed value |
| Home.HomePage.HandleSubmit | src/pages/home.tsx:142-155 | blank input changes nothing; otherwise one query with the untrimmed input and the current id, then the input is cleared; no pending check |
| Home.HomePage.HandleKeyDown | src/pages/home.tsx:157-162 | Enter without Shift submits; Shift+Enter and other keys change nothing |
| Home.HomePage.OnQuerySuccess | src/pages/home.tsx:120-135 | with a truthy id only `['conversation', id]` is invalidated and nothing navigates; without one, a truthy response id replaces the route with `/?conversation=<id>` and invalidates `['conversations']`; otherwise nothing |
| Notes.NotesPage.constructor | src/pages/notes.tsx:17 | empty input |
| Notes.NotesPage.HandleInput | src/pages/notes.tsx:81-87 | input becomes the typed value |
| Notes.NotesPage.HandleSubmit | src/pages/notes.tsx:59-72 | blank input issues nothing and keeps the input; otherwise exactly one ingest of the raw, untrimmed input, and the input is cleared |
| Notes.NotesPage.HandleKeyDown | src/pages/notes.tsx:74-79 | Enter without Shift submits; Shift+Enter and other keys change nothing |
| Notes.NotesPage.OnIngestSuccess | src/pages/notes.tsx:54-56 | exactly the `['notes','NOTE']` key is invalidated |
| AppSidebar.FormatChatPreview | src/components/app-sidebar.tsx:43-46 | a null or empty title gives `New Chat`; at most 30 characters are kept as they are; a longer title gives its first 30 characters plus `...` (33 characters); never empty, never over 33 |
| AppSidebar.Conversations | src/components/app-sidebar.tsx:41 | a missing response or missing `data` gives no conversations; otherwise the list |
| AppSidebar.RecentChats | src/components/app-sidebar.tsx:92-112 | no group for an empty list; otherwise one link per conversation, in order, whose route is that conversation's route (reading back as its id) and whose text is its preview |
| AppSidebar.RecentChatsDistinctRoutes | src/components/app-sidebar.tsx:97-100 | conversations with distinct ids get links to distinct routes |

## Left out

- HTTP calls (`fetchAllitems`, `ingestNotes`, `ingestUrls`, `queryData`, `fetchConversation`, `fetchConversations`) and JSON decoding: they become `Effect` values and outcome parameters. `src/queries/api.ts` and `src/App.tsx` (routing and providers only) are not part of this model.
- `parseInt` of the `conversation` search parameter: the id is given as `ConversationParam` (undefined, NaN or an integer).
- The URL parser (`new URL`): a parameter. Only its throw-or-protocol outcome is used.
- TanStack Query internals: mutation lifecycle, `isPending`, caching and refetching. Pending flags and outcomes are inputs, and invalidations are effects.
- Toasts, `console.log`, focus timers, textarea auto-resize, `scrollIntoView`, dates and all styling.
- The item lists of the notes and URL pages (cards, the View sheet, the Visit link): rendering only.
- The sidebar's New Chat button (`navigate('/')`): the same navigation that `Home.HomePage.HandleNewChat` models.
- The URL input's `disabled` while ingesting: that input then fires no key events, so Enter cannot submit during an ingest. The model has no event gating.
- Lengths and the 60- and 30-character cuts count code points. JavaScript counts UTF-16 code units, so text outside the Basic Multilingual Plane is cut differently.
- JsNumbers.IntToString: ids are taken to be safe integers (|n| ≤ 2^53). Above that, JavaScript prints the shortest digits naming the same double, padded with zeros (2^60 prints as 1152921504606847000), and from 10^21 it uses exponent notation; the model prints the exact digits of every integer.
- Home.Header: for an id of `0` or `NaN`, `{conversationId && …}` makes React print that bare `0` or `NaN` where the header would be; the model returns no header there.
