# Chat client, proxy and agents — a Dafny model

This project models the behaviour of a chat web client, the Express proxy behind it
and the two Python agent programs the proxy can talk to. Each source file becomes one
Dafny module:

- `Conversation` (`src/pages/Index.tsx`). It holds the canned reply table
  `getAIResponse` as a pure function and the `Session` class: an append-only message
  log, the `isWaitingForResponse` flag, and the queue of pending 1500 ms reply timers.
  It also holds the list of bubbles the page renders and a `Page` class that wires the
  composer's gate to the session. With that gate, the log alternates user/assistant.
  When idle, the log has even length and every reply answers the message before it.
  While waiting, the log has odd length and ends in the user message the one pending
  timer will answer.
- `Input` (`src/components/ChatInput.tsx`): the `ChatInput` class with the draft, the
  send gate (trim, non-empty, not waiting), the Enter rule, the disabled predicates and
  the height cap.
- `Animation` (`src/hooks/useChatAnimation.tsx`): the entry animation as a class whose
  steps are the timer callbacks, and the typewriter as a class whose step is one
  interval tick, with a loop that runs it to completion.
- `Bubble` (`src/components/ChatMessage.tsx`): the media-type dispatch of attachments,
  the typing indicator / text choice, and the copy-button rule.
- `Controller` (`backend/src/controllers/ai.controller.ts`): both handlers as functions
  from the request to the one response sent. The agent service is a parameter that gives
  the outcome of the forwarded call.
- `Agent` (`python-agent/agent.py`): search-hit mapping, the numbered summary text, and
  the choice between a video reply and a plain reply. The search API, the regex
  extractor and the language model are parameters.
- `MockAgent` (`src/python_agent/agent.py`): the mock query reply. Both agents' file
  handler is the same code, modelled once as `AgentProtocol.ProcessFile`.
- `Text`: the string primitives these rely on (`toLowerCase`, `includes`,
  `startsWith`, `trim`, decimal rendering).

Timers and intervals fire as explicit steps. A time label is an opaque string. Every
handler is a function or a method of its request, so the same input always gives the
same output.

The page as written never calls the proxy. It never uploads a file and has no failure
or fallback path: every reply comes from the local rule table after the timer. The
model follows that code. There is no upload-before-send step, no degraded-mode notice
and no sequence number beyond a bubble's position.

One behaviour of `useChatAnimation` is worth knowing. The cleanup for the 300 ms
completion timer is returned from inside a timer callback, so nothing ever calls it.
The effect also does not reset the state when `delay` changes. The state moves forward
(initial, animating, complete) within one effect run (`ChatAnimation.OneRun`). A change
of `delay` after completion takes it back to animating (`RestartAfterComplete`).

## Model

| member | source | states |
|---|---|---|
| `Text.Trim` | src/components/ChatInput.tsx:21-22 | `trim()` returns the infix left after removing whitespace from both ends: every removed character is whitespace, and a non-empty result starts and ends with a non-whitespace character |
| `Text.TrimEmptyIff` | src/components/ChatInput.tsx:21 | the trimmed draft is empty (falsy) exactly when every character is whitespace |
| `Text.TrimIdempotent` | src/components/ChatInput.tsx:22 | the forwarded text trims to itself |
| `Text.ToLower` | src/pages/Index.tsx:59 | `toLowerCase()` keeps the length and lower-cases each character on its own (A-Z to a-z, everything else unchanged) |
| `Text.Contains` | src/pages/Index.tsx:59-65 | `includes()`: the empty keyword occurs in every text, an occurrence never needs more room than the text has, and a keyword as long as the text occurs only when it is the text |
| `Text.StartsWith` | src/components/ChatMessage.tsx:58-73 | `startsWith()` holds exactly when the prefix is no longer than the text and agrees with it character by character |
| `Text.Decimal` | python-agent/agent.py:95-96 | `str(i)` of an entry number is a non-empty run of decimal digits |
| `Text.ToLowerIdempotent` | src/pages/Index.tsx:59 | lower-casing an already lower-cased text changes nothing |
| `Text.DecimalRoundTrip` | python-agent/agent.py:95-96 | the decimal number of a summary entry reads back as the number |
| `Conversation.AIResponse` | src/pages/Index.tsx:58-70 | the reply is always one of the five fixed texts |
| `Conversation.AIResponseIsFirstMatch` | src/pages/Index.tsx:58-70 | the reply equals a first-match-wins evaluation of the ordered table hello/hi, help, design, code/react on the lower-cased message, with the acknowledgement as default |
| `Conversation.AIResponseIgnoresCase` | src/pages/Index.tsx:59-65 | a message and its lower-cased form get the same reply |
| `Conversation.AIResponseSameUpToCase` | src/pages/Index.tsx:59-65 | two messages equal up to case get the same reply |
| `Conversation.GreetsOnHiAnywhere` | src/pages/Index.tsx:59-60 | "hi" at any position of the lower-cased text, even inside a word, yields the greeting |
| `Conversation.FirstMatchExamples` | src/pages/Index.tsx:58-69 | "hello, help me" and "this code" greet (earlier rule wins; substring match); "xyz" gets the acknowledgement |
| `Conversation.DefaultIffNoKeyword` | src/pages/Index.tsx:58-69 | the acknowledgement comes back exactly when none of the six keywords occurs |
| `Conversation.Session.constructor` | src/pages/Index.tsx:16-18 | a session starts with an empty log, not waiting, nothing scheduled |
| `Conversation.Session.Send` | src/pages/Index.tsx:29-40 | appends exactly one user message with the given text at the end, leaves earlier messages alone, raises the flag and schedules the reply for that text |
| `Conversation.Session.Reply` | src/pages/Index.tsx:43-55 | the earliest timer fires: appends exactly one assistant message whose text is the canned reply to the text it was scheduled for, and clears the flag |
| `Conversation.SettledEnds` | src/pages/Index.tsx:39-54 | in a settled session the waiting log ends with a user message and a non-empty idle log ends with an assistant message |
| `Conversation.SendSettles` | src/pages/Index.tsx:29-40 | an accepted send from an idle settled session gives a settled waiting session (odd length, one timer holding the last user text) |
| `Conversation.ReplySettles` | src/pages/Index.tsx:43-55 | the reply on a waiting settled session gives a settled idle session (even length, alternating, each reply answering the message before it) |
| `Conversation.Thread` | src/pages/Index.tsx:92-116 | the page renders nothing for an empty log; otherwise one bubble per message in order, then the placeholder while waiting; every bubble's index is its position |
| `Conversation.PlaceholderRendering` | src/pages/Index.tsx:108-116 | the placeholder takes index `messages.length`, shows the typing indicator, no copy button and no attachment |
| `Conversation.ThreadCopyButtons` | src/pages/Index.tsx:98-106 | on a settled page each logged message shows its text, and the copy button is on exactly the non-empty assistant replies |
| `Conversation.Page.Submit` | src/pages/Index.tsx:125-128 | a send goes through the composer's gate and an accepted draft becomes the next user message; the draft is cleared, the height reset and the reply timer queued; a refused one changes neither the session nor the composer; the page stays settled |
| `Conversation.Page.ReplyArrives` | src/pages/Index.tsx:43-55 | the log becomes the old log plus the canned reply to its last user message, landing at the index the placeholder held; the earliest timer is used up and the page stays settled |
| `Input.SendGate` | src/components/ChatInput.tsx:20-23 | a send is forwarded exactly when not waiting and the draft has a non-whitespace character; what is forwarded is the trimmed draft, non-empty, with no surrounding whitespace |
| `Input.SendDisabled` | src/components/ChatInput.tsx:107 | the send button is disabled exactly when a send would do nothing |
| `Input.TextareaHeight` | src/components/ChatInput.tsx:42-45 | the height is the content height capped at 200, never above either |
| `Input.DisabledControls` | src/components/ChatInput.tsx:63-107 | while waiting the textarea and all buttons are disabled; otherwise only the send button can be, exactly when a send would do nothing |
| `Input.ChatInput.constructor` | src/components/ChatInput.tsx:17 | the draft starts empty |
| `Input.ChatInput.Change` | src/components/ChatInput.tsx:73 | typing replaces the draft |
| `Input.ChatInput.Resize` | src/components/ChatInput.tsx:39-47 | after a draft change the height becomes the capped content height |
| `Input.ChatInput.HandleSend` | src/components/ChatInput.tsx:20-29 | forwards what the gate allows and then clears the draft and resets the height; otherwise forwards nothing and changes nothing |
| `Input.ChatInput.HandleKeyDown` | src/components/ChatInput.tsx:31-36 | Enter without Shift prevents the newline and attempts a send; Shift+Enter and other keys forward nothing and change nothing |
| `Animation.AnimationClass` | src/hooks/useChatAnimation.tsx:26-31 | each state has its own fixed class string, and each string belongs to exactly one state |
| `Animation.FlagsExclusive` | src/hooks/useChatAnimation.tsx:24-25 | `isAnimating` holds exactly in animating, `isComplete` exactly in complete, never both |
| `Animation.ChatAnimation.constructor` | src/hooks/useChatAnimation.tsx:7-10 | mount starts in initial with the delay timer pending |
| `Animation.ChatAnimation.Restart` | src/hooks/useChatAnimation.tsx:9-21 | a change of `delay` replaces the pending delay timer, keeps the state and leaves completion timers pending |
| `Animation.ChatAnimation.DelayElapsed` | src/hooks/useChatAnimation.tsx:10-15 | the delay timer sets animating and schedules a completion timer; within one run this moves one stage forward |
| `Animation.ChatAnimation.CompletionElapsed` | src/hooks/useChatAnimation.tsx:13-15 | a completion timer sets complete; within one run this moves one stage forward |
| `Animation.OneRunGoesForward` | src/hooks/useChatAnimation.tsx:7-21 | one effect run goes initial, animating, complete |
| `Animation.RestartAfterComplete` | src/hooks/useChatAnimation.tsx:9-21 | a change of `delay` after completion goes complete, animating, complete again |
| `Animation.TypingAnimation.constructor` | src/hooks/useChatAnimation.tsx:39-43 | on (re)start the display is empty, not complete, the counter 0, the interval running |
| `Animation.TypingAnimation.Tick` | src/hooks/useChatAnimation.tsx:44-52 | a tick with characters left appends `text[i]` and advances `i`; the last tick clears the interval and raises completion; `displayedText == text[..i]` throughout, and completion means the whole text is shown |
| `Animation.Typewrite` | src/hooks/useChatAnimation.tsx:43-54 | completion takes exactly `|text| + 1` ticks; after tick k the display is the first k+1 characters, and it ends with the whole text |
| `Bubble.RenderFileAttachment` | src/components/ChatMessage.tsx:55-97 | no attachment when the URL or type is absent or empty; otherwise image, video, audio or download, chosen by the ordered prefix tests, always pointing at the URL; video and audio carry the type as source type |
| `Bubble.PrefixIsTopLevelType` | src/components/ChatMessage.tsx:58-73 | a type starts with "image/" (or "video/", "audio/") exactly when its top-level type is "image" (or "video", "audio") |
| `Bubble.AttachmentByTopLevelType` | src/components/ChatMessage.tsx:58-95 | the element depends only on the top-level type, so no type matches two prefixes and the test order does not matter |
| `Bubble.Render` | src/components/ChatMessage.tsx:124-157 | the typing indicator replaces the text when asked for; the copy button shows exactly for an assistant bubble that is not loading and has text; `isLoading` and `showTypingIndicator` default to false |
| `Controller.ProcessQuery` | backend/src/controllers/ai.controller.ts:13-28 | a falsy query gets 400 "Query is required" and the service is not called; a truthy one is forwarded unchanged and the service's answer is sent unchanged with 200; a failure gets 500 "Failed to process query"; exactly one of these |
| `Controller.ProcessFileUpload` | backend/src/controllers/ai.controller.ts:31-53 | no file gets 400 "No file uploaded"; a file gets 200 with `success: true` and `{url: "/uploads/" + filename, name, type}` |
| `Controller.UploadUrlNamesFile` | backend/src/controllers/ai.controller.ts:39-45 | the returned URL starts with "/uploads/" and the stored file name is what follows |
| `Agent.ToVideo` | python-agent/agent.py:64-73 | a card's URL is the watch prefix followed by the video id; title, channel and thumbnail are copied |
| `Agent.ToVideos` | python-agent/agent.py:63-75 | one card per hit, in the same order |
| `Agent.SearchYouTubeVideos` | python-agent/agent.py:49-78 | the append loop returns the cards for the hits (none when `items` is missing); without a key, the one "not configured" card; after an HTTP error, nothing |
| `Agent.UnconfiguredSearchListsPlaceholder` | python-agent/agent.py:51-52 | without a key the search yields the single placeholder card with empty URL, thumbnail and channel, listed as entry 1 |
| `Agent.EntriesAppend` | python-agent/agent.py:95-96 | the entries of a concatenated list are the entries of each part, numbering continuing |
| `Agent.EntriesSnoc` | python-agent/agent.py:95-96 | listing one more video of the list adds exactly its entry, numbered one past the videos before it |
| `Agent.EntriesNumbered` | python-agent/agent.py:95-96 | the k-th video is entry number k+1, after all earlier videos and before all later ones |
| `Agent.FormatResults` | python-agent/agent.py:94-96 | the `+=` loop yields the header followed by one numbered entry per video, in list order |
| `Agent.ProcessQuery` | python-agent/agent.py:81-116 | with an extracted query and a non-empty search result, the reply is "youtube_results", carries the cards unchanged and the model's summary of the numbered list; otherwise it is the model's answer to the raw query, of type "text" |
| `AgentProtocol.ProcessFile` | python-agent/agent.py:119-134 | echoes `filePath` and `fileType` (each "" when missing) into the file reference, type "text", and names both in the text; `src/python_agent/agent.py:25-41` is the same code |
| `AgentProtocol.ProcessFileTextNamesPath` | python-agent/agent.py:125-131 | the file reply's text is the fixed opening, then the path, then " of type " and the type |
| `MockAgent.ProcessQuery` | src/python_agent/agent.py:11-22 | a "text" reply with no videos and no file whose text is "AI response to: " followed by the query ("" when missing) |
| `MockAgent.ProcessQueryInjective` | src/python_agent/agent.py:13-20 | among requests whose query is a string or absent, two get the same reply exactly when their queries (defaulted to "") are equal; a missing query gives just the prefix |

## Left out

- `toLowerCase` is modelled for ASCII letters only; other Unicode case mappings are not modelled.
- Animation.Typewrite: counts and reveals Unicode characters, while `text.length` and `text.charAt(i)` count UTF-16 code units. A character outside the Basic Multilingual Plane, such as an emoji, takes two ticks in the source and shows a lone surrogate after the first; the model takes one tick and never shows half a character. Dafny strings here are sequences of whole characters.
- Animation.TypingAnimation.Tick: appends one whole Unicode character where `text.charAt(i)` appends one UTF-16 code unit, for the same reason; text inside the Basic Multilingual Plane behaves identically.
- MockAgent.ProcessQuery: a present `query` is taken to be a string. `data.get('query', '')` returns a JSON null or number unchanged and the f-string renders it with Python's `str`, so `{"query": null}` gets "AI response to: None" and `{"query": 5}` gets "AI response to: 5"; those requests are not modelled.
- MockAgent.ProcessQueryInjective: holds for string or absent queries only; over all JSON requests it fails, since `{"query": null}` and `{"query": "None"}` get the same reply.
- AgentProtocol.ProcessFile: present `filePath` and `fileType` are taken to be strings; a JSON null field gives "None" in the text and null in `file.url`, which the model does not express.
- Agent.ProcessQuery: a present `query` is taken to be a string. A JSON null or number would make `re.search` in `extract_youtube_query` raise a `TypeError`, ending in Flask's own error response, which is not modelled.
- JSON numbers are integers here; NaN, -0 and fractions (all relevant to JavaScript truthiness) are not modelled.
- Rendering: layout, class names other than the animation's, icons, avatars, the welcome screen and `handleStartChat`, the theme toggle and the chat transition carry no behaviour worth a contract.
- The staggered entry delay `index * 0.1` and the ease curves are floating-point timings.
- The clipboard write and the 2000 ms `copied` reset, and `scrollIntoView`, are browser effects.
- Time labels from `toLocaleTimeString` are opaque strings passed in.
- A typewriter tick is taken as atomic. Under React's batched updates, the lazy `prev => prev + text.charAt(i)` updater could read an already incremented `i`; that interleaving is not modelled.
- The typewriter's `speed` only sets the interval period, so it does not appear. A change of `text` or `speed` restarts the animation, which is a new `TypingAnimation`.
- The textarea's `onChange` cannot fire while the textarea is disabled; the model does not enforce that, since the browser does.
- `src/utils/api.ts`, `src/server/services/ai.service.ts` and `backend/src/index.ts` are not part of this model: they only delegate to axios and Express. The agent service appears as the `service` parameter.
- `processFileUpload`'s 500 branch cannot be reached in the model: nothing in its `try` block throws once the file record exists.
- Logging (`console.error`, Python `print`) is left out.
- `extract_youtube_query` needs Python regular expressions with lazy quantifiers; it is the `extract` parameter.
- The YouTube client, the language model (`assistant.run`), the `max_results` bound the API applies, Flask start-up and environment parsing are external; their effects appear as parameters.
- Python exceptions other than `HttpError` (a hit missing a field, a request with no JSON body) end in Flask's own error response, which is not modelled.
