# Verified model of the wellness page's chat and quote logic

The repository is a browser page with two widgets: a motivational-quote rotator and a
supportive chat bot that forwards messages to a remote chat-completion service. Almost all
of `script.js` is DOM, timer and network plumbing. This project models the part that makes
decisions:

- **Context detection** (`detectContext`). The message is lower-cased. Three keyword
  categories are then tried in a fixed order: greeting, sad, anxious. The first category
  with a keyword occurring anywhere in the message wins; otherwise the context is
  `general`. This is a substring match, so "this" counts as a greeting because it
  contains "hi".
- **Local replies.** `getSupportiveResponse` keeps the remote answer only when it is longer
  than ten characters. Otherwise it draws a canned line from the pool of the message's
  context. `generateContextualResponse` is a cascade of keyword tests, with a follow-up
  flag that is set once the history holds more than two turns.
- **Conversation history** (`getAIResponse`). Before waiting for the service, the user
  turn is stored and the request is built: the system prompt plus the last eight turns.
  When an answer arrives it is stored too, and the history is cut back to its last twenty
  turns. When no answer arrives nothing is cut, so the twenty-turn cap holds only right
  after a successful reply. The two halves are separate methods (`BeginRequest`,
  `CompleteRequest`), because a second send can be made while the first waits.
- **Quote choice** (`generateQuote`). A non-empty remote quote is kept. Otherwise a quote
  is drawn from the ten local ones.

Modules: `Options` (nullable values), `Text` (the string and array built-ins used:
`toLowerCase`, `includes`, `slice`), `Sampling` (`Math.floor(Math.random() * n)`),
`Contexts`, `Messages` (chat turns), `Replies`, `Quotes` and `Chat` (the session class
holding `conversationHistory`).

Parameters stand in for the outside world:
- `Math.random()` is a real `r` with `0 <= r < 1`. Every pick is `Floor(r * n)`, which is
  proved to be in range and to reach every index.
- The quote service's result is an `Option<string>`.
- The completion service's result is an `Option<string>`. `None` covers a thrown error, a
  non-OK status, and a body without `choices[0].message`.

`script.js` has no chat genres, no used-quote set, no quote-fetch retries and no fixed
maintenance message. A failed chat falls back to canned keyword replies. The 20-turn cut
runs only on the success path (`FailedRequestsAccumulate`).

The `|| lowerMessage.includes('thanks')` test in `generateContextualResponse` can never
change the outcome, because "thanks" contains "thank" (`ThanksImpliesThank`).
`generateContextualResponse` is never called from `script.js`; it is modelled as written.

## Model

| member | source | states |
|---|---|---|
| `Text.ToLower` | script.js:194 | lower-casing keeps the length, leaves no upper-case ASCII letter, and changes only 'A'..'Z', each to its lower-case letter |
| `Text.ToLowerIdempotent` | script.js:194 | lower-casing an already lower-cased message changes nothing |
| `Text.Includes` | script.js:197 | `s.includes(k)` holds for the empty keyword and only for keywords no longer than `s` (`IncludesIsSubstring` gives the full meaning) |
| `Text.ToLowerAppend` | script.js:194 | lower-casing a concatenation lower-cases each part |
| `Text.IncludesInContext` | script.js:197 | text added before or after a string never hides a substring of it |
| `Text.IncludesIsSubstring` | script.js:197 | `includes(s, k)` holds exactly when `k` occurs as a contiguous block at some index of `s` |
| `Text.IncludesPrefix` | script.js:243 | a string containing `k` contains every prefix of `k` |
| `Text.SliceFrom` | script.js:175 | `slice(start)` returns a suffix: of length `min(-start, n)` for a negative start, and `n - min(start, n)` otherwise |
| `Text.SliceLast` | script.js:145 | `slice(-n)` with `n > 0` yields exactly the last `min(n, length)` elements, in order |
| `Sampling.PickIndex` | script.js:46 | `Math.floor(r * n)` with `0 <= r < 1` is a valid index of any non-empty pool |
| `Sampling.PickIndexReaches` | script.js:46 | every index below `n` is produced by some value of `Math.random()` |
| `Contexts.AnyIncluded` | script.js:197 | `keywords.some(k => s.includes(k))` holds exactly when some keyword of the list occurs in `s` |
| `Contexts.FirstMatch` | script.js:196-200 | the search stops at the first category whose keywords occur; all earlier categories have none |
| `Contexts.DetectContext` | script.js:117-121 | greeting whenever a greeting keyword occurs in the lower-cased message; sad when a sad keyword occurs and no greeting keyword; anxious when only anxious keywords occur; general when none does |
| `Contexts.DetectContextIgnoresCase` | script.js:194 | a message and its lower-cased form get the same context |
| `Contexts.DetectContextSameUpToCase` | script.js:193-194 | two messages that agree up to case get the same context |
| `Contexts.GeneralIffNoKeyword` | script.js:196-202 | the context is general exactly when no keyword of any category occurs in the lower-cased message |
| `Contexts.ThisIsAGreeting` | script.js:118 | "this" is classified as a greeting, because matching is by substring and it contains "hi" |
| `Contexts.GreetingWinsInAnyContext` | script.js:196-200 | once a message is a greeting, any text added before or after it, sad and anxious keywords included, leaves it a greeting |
| `Contexts.HeySadScaredIsAGreeting` | script.js:196-200 | the example "Hey, I feel sad and scared", which holds all three kinds of keyword, is a greeting |
| `Replies.FallbackResponses` | script.js:283 | each of the four contexts `detectContext` can return has its own pool of four canned lines; the `|| fallbackResponses.general` default is never taken because every context is a key of the table |
| `Replies.FallbacksAreLong` | script.js:89-113 | every canned fallback line is longer than ten characters |
| `Replies.SupportiveResponse` | script.js:274-285 | the remote answer is returned when present and longer than ten characters; otherwise the reply is a line of the fallback pool for `detectContext(message)` |
| `Replies.RemoteReplyOnlyWhenLong` | script.js:274-276 | a remote answer comes back as the reply if and only if it is longer than ten characters |
| `Replies.EveryFallbackReachable` | script.js:282-285 | without a remote answer, every line of the context's pool is a possible reply |
| `Replies.ContextualResponse` | script.js:205-268 | a greeting reply is one of the fallback greeting lines; no other context ever yields a greeting line (the lemmas below give its full behaviour) |
| `Replies.IsFollowUp` | script.js:209 | the follow-up flag; `FollowUpDecidesQuestion` states its effect on the reply |
| `Replies.ContextualResponseInPool` | script.js:212-267 | a greeting reply is one of the fallback greeting lines; a general reply with a canned topic is one of the four canned replies; any other reply is one of the context's four prompts, asked with the follow-up flag |
| `Replies.ContextualExtendsFallback` | script.js:222-240 | a sad or anxious contextual reply begins with the fallback line that the same draw picks, followed by a space |
| `Replies.QuestionsDiffer` | script.js:224-264 | in every prompt the follow-up question and the first-time question differ |
| `Replies.FollowUpDecidesQuestion` | script.js:209 | for replies drawn from a prompt pool, two histories give the same reply exactly when both or neither hold more than two turns |
| `Replies.PoolRepliesAreNotCanned` | script.js:243-264 | no prompt-pool reply equals one of the canned general replies |
| `Replies.CannedRepliesInOrder` | script.js:243-257 | each canned reply (thanks, help, tired, alone) is given exactly when the context is general, its keywords occur, and the keywords of every earlier test do not |
| `Replies.ThanksImpliesThank` | script.js:243 | the "thank or thanks" test is the same as the "thank" test |
| `Quotes.GenerateQuote` | script.js:40-48 | a present, non-empty remote quote is shown; otherwise the quote is one of the ten fallback quotes |
| `Quotes.EveryFallbackQuoteReachable` | script.js:46-47 | without a remote quote, every fallback quote can be shown |
| `Chat.Trim` | script.js:174-176 | the history after the cut holds the last `min(20, n)` turns, in order |
| `Chat.Outgoing` | script.js:143-146 | the request is the system message followed by the last `min(8, n)` history turns, in order |
| `Chat.OutgoingHasOneSystemMessage` | script.js:143-146 | a request built from a history without system turns holds exactly one system message, the first |
| `Chat.OutgoingIsBounded` | script.js:143-146 | at most nine messages are sent, and every one after the first is a stored turn |
| `Chat.TrimShort` | script.js:174 | a history of at most twenty turns is not cut |
| `Chat.TrimKeepsAnswer` | script.js:171-176 | after storing an answer and cutting, the history holds one to twenty turns and ends with that answer |
| `Chat.TrimKeepsLatest` | script.js:171-176 | after storing a question and its answer and cutting, the history holds two to twenty turns and ends with that question and answer |
| `Chat.PushKeepsConversational` | script.js:130 | storing a user or assistant turn keeps the history free of system turns |
| `Chat.TrimKeepsConversational` | script.js:175 | cutting keeps the history free of system turns |
| `Chat.ChatSession.constructor` | script.js:124 | a session starts with an empty history, and its system prompt is the text of script.js:133-140 |
| `Chat.ChatSession.BeginRequest` | script.js:130-146 | the user turn is appended; the request is the prompt and the last eight turns of the new history, with one system message, the first |
| `Chat.ChatSession.CompleteRequest` | script.js:163-179 | without an answer nothing changes; with one the history is the cut of old history + assistant turn, has at most twenty turns and ends with the answer |
| `Chat.ChatSession.GetAIResponse` | script.js:127-191 | a request with no other send in between: the user turn is always appended; the request is computed from the history including it and has one system message, the first; without an answer nothing else changes and none is returned; with an answer the history is the cut of old history + user turn + assistant turn, has at most twenty turns and ends with that exchange |
| `Chat.ChatSession.GetSupportiveResponse` | script.js:270-286 | with no other send in between, the reply is the selection of `SupportiveResponse` on the service's answer, and the history changes as in `GetAIResponse` |
| `Chat.SendTwice` | script.js:130 | two sends whose answers are still pending store both user turns, in order |
| `Chat.OverlappingRequests` | script.js:130-176 | when a second message is sent before the first answer arrives, the history is `[u1, u2, a1]`: the answer follows the wrong question |
| `Chat.FailedRequestsAccumulate` | script.js:130 | from an empty history, `n` failed requests leave exactly `n` stored turns, so the twenty-turn cap is not an invariant |

## Left out

- Chat.ChatSession.GetAIResponse: runs `BeginRequest` and `CompleteRequest` back to back,
  so its history ensures hold only when no other send lands between them. `sendMessage`
  does not block a second send while a request waits. Such interleavings are modelled
  only by calling the two halves directly, as `OverlappingRequests` does.
- Chat.ChatSession.GetSupportiveResponse: same back-to-back assumption as `GetAIResponse`.
- Network I/O: the `fetch` calls to the quote and completion endpoints, JSON parsing, HTTP
  status handling and error logging. Their results are `Option<string>` parameters.
- The case where the completion body has `choices[0].message` but its `content` is not a
  string. The source would store and return that value; the model's turns always hold
  strings.
- The DOM: `innerHTML`, CSS classes, scrolling, the typing indicator, opening and closing
  the widget, and `addMessage`. Also `sendMessage`, including its trimming of the input,
  its empty-message guard and its catch-path general fallback. These are UI handlers.
- The `"..."` wrapping and fade effect around a shown quote. Display only.
- `setTimeout`/`setInterval` scheduling and event listeners. Timer and event plumbing.
- The API key and the request fields `model`, `max_tokens`, `temperature` and `stream`.
  Foreign configuration with no behaviour to check.
- `Math.random` itself, and uniformity of the draw. It is a caller-chosen real in [0, 1).
- Floating-point rounding of `Math.random() * n`. The product is an exact real.
- `Text.ToLower`: models only the ASCII case mapping. JavaScript's `toLowerCase` also maps
  non-ASCII letters, and some of them to two characters.
- String lengths are counted in characters, not UTF-16 code units. This affects the
  10-character test only for characters outside the Basic Multilingual Plane.
- `Replies.SupportiveResponse`: states that the fallback reply is in the context's pool,
  not which index `r` selects. `Replies.EveryFallbackReachable` covers the selection.
- `Quotes.GenerateQuote`: states that the fallback quote is in the pool, not which index
  `r` selects. `Quotes.EveryFallbackQuoteReachable` covers the selection.
- Chat genres, used-quote deduplication, quote-fetch retries and the maintenance message.
  None of them exist in `script.js`.
