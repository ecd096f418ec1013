# Travel Boss WhatsApp bot: conversation control

A Dafny model of the part of `bot.js` that decides what the Travel Boss visa
agency's WhatsApp bot does with each incoming message. It covers:

- the per-user sliding-window rate limiter (`SimpleRateLimiter`) and its
  five-minute sweep;
- the session registry `userStates`, with the stop words, the activation
  tokens, the silence of an inactive session and the greeting chosen by hour;
- the keyword intent classifier (`analyzeIntent`) and the router that sends
  image, gallery and location requests to the media senders and everything
  else to the AI service;
- the AI service's per-user conversation history, trimmed to the newest ten
  turns, with the provider call reduced to its outcome, and the keyword
  fallback responder (`getFallbackResponse`);
- the analytics counters (`trackMessage`, `trackError`);
- the owner's admin commands, with `!clear` modelled in full, and the
  two-hour idle-session eviction.

Modules, one per file: `Text` (JavaScript `trim`, `toLowerCase`, `includes`),
`Intents`, `Fallback`, `RateLimit`, `Analytics`, `Sessions`, `Ai` and `Router`.
The last one holds the class `Bot`, which owns a `RateLimiter`, an
`AIService`, a `SimpleAnalytics` and the session map. Clock readings (`now`
in milliseconds, `hour` for the greeting), the provider's behaviour
(`ProviderOutcome`) and whether a media send succeeds (`mediaOk`) are
parameters.

The main results:

- A session answers exactly when it is active. Every conversation history
  belongs to a known session. Both hold across every handled message, every
  admin command and every eviction, each run to completion before the next
  starts (`Router.Bot.Valid`).
- A stored history is always the newest part of the conversation. It holds
  at least the last ten turns, or everything when fewer were said, and at
  most eleven, when calls do not overlap (`Ai.NextHistoryKeepsNewest`).
  Ten or more calls in a row whose answer is not recorded (the model gave
  no text or threw) leave exactly the last ten user turns
  (`Ai.UnrecordedCall`, `Ai.LastTenTurns`).
- A model provider that cannot be called (no Gemini model, or no OpenAI or
  Anthropic key) always answers with the keyword fallback and records only
  the user's turn (`Ai.UncallableFallsBack`).
- The counters stay balanced. The total always equals AI answers plus
  fallback answers. Exactly the welcomed, answered and media-served messages
  are counted (`Router.CountedExactlyWhenServed`).
- The rate limiter admits a message exactly when fewer than ten timestamps
  lie inside the last minute. A full window refuses the next message, and an
  elapsed window admits it.

## Model

| member | source | states |
|---|---|---|
| Text.TrimStartCuts | bot.js:740 | `trim` removes exactly the leading whitespace: the result is a suffix of the input, it does not start with whitespace, and everything cut off is whitespace |
| Text.TrimEndCuts | bot.js:740 | `trim` removes exactly the trailing whitespace: the result is a prefix of the input, it does not end with whitespace, and everything cut off is whitespace |
| Text.TrimCuts | bot.js:740 | the trimmed text has no whitespace at either end and sits inside the input with only whitespace around it |
| Text.LowerCharKeepsSpace | bot.js:760 | lower-casing a character never creates or removes whitespace |
| Text.Lower | bot.js:760 | `toLowerCase` keeps the length and lowers every character in place, as `LowerChar` does |
| Text.ContainsOccurs | bot.js:780 | the `includes` scan answers true exactly when the keyword occurs at some position of the text |
| Text.TrimOfLoweredTrimmed | bot.js:760 | trimming the lowered, already-trimmed message changes nothing |
| Intents.Rank | bot.js:487-497 | each intent other than `general` has a position in the table that holds its rule; `general` comes after the table |
| Intents.FirstMatch | bot.js:501-505 | the search stops at the first rule with a keyword in the message: no earlier rule matches, and the rule found does |
| Intents.RankOfRow | bot.js:487-497 | each row of the table sits at the position of its own intent, so no intent has two rows |
| Intents.ClassifyFirstMatching | bot.js:486-508 | the intent is the first in table order with a keyword in the lower-cased message, and `general` exactly when no rule matches |
| Intents.AnalyzeIntent | bot.js:486-508 | the loop over the table returns the intent that the first-match classification defines |
| Intents.EarlierIntentWins | bot.js:501-505 | a message containing a keyword of an earlier intent is never classified as a later one |
| Fallback.TemplateText | bot.js:419-472 | every fallback template has a non-empty text |
| Fallback.TemplateTextInjective | bot.js:419-472 | distinct templates have distinct texts |
| Fallback.GetFallbackResponse | bot.js:415-484 | the fallback always answers with a non-empty text |
| Fallback.FallbackPriority | bot.js:415-484 | the answer is the pricing text exactly when a price word occurs; the location text exactly when no price word and some location word occurs; the documents text likewise after both; otherwise, and only then, the basic-mode notice |
| Fallback.PricingExample | bot.js:418-419 | the message "quanto custa o visto" gets the pricing answer |
| RateLimit.Recent | bot.js:594 | the purge keeps exactly the timestamps inside the window and never grows the list |
| RateLimit.RecentIsSubsequence | bot.js:594 | the purge keeps the surviving timestamps in their order |
| RateLimit.RecentOfConcat | bot.js:594 | purging a concatenation purges each part |
| RateLimit.RecentKeepsAllInWindow | bot.js:594 | a list entirely inside the window is kept whole |
| RateLimit.RecentDropsAllStale | bot.js:594 | a list entirely outside the window is purged completely |
| RateLimit.StaleEntriesNeverCount | bot.js:594-598 | timestamps older than the window do not change the purge of what follows them |
| RateLimit.FullWindowRefuses | bot.js:596-598 | with `maxRequests` timestamps inside the window, the next message is refused |
| RateLimit.ElapsedWindowAdmits | bot.js:596-602 | once the window has elapsed since every stored timestamp, the next message is admitted |
| RateLimit.Swept | bot.js:606-613 | after the sweep, no user is kept with an empty list, every kept timestamp is newer than five minutes, and every user with a recent timestamp is kept; a kept list holds every recent timestamp of that user, in the original order; each user's list after the sweep is exactly the window purge `isAllowed` applies, with a five-minute window, so duplicates are kept |
| RateLimit.AllRecentAreSubsequences | bot.js:608 | purging every user's list keeps each list's survivors in their order |
| RateLimit.RateLimiter.constructor | bot.js:580-583 | the limiter starts with no users |
| RateLimit.RateLimiter.IsAllowed | bot.js:585-602 | admits exactly when fewer than `maxRequests` timestamps are inside the window. When admitting, it stores the purged list with `now` appended, which then holds at most `maxRequests` entries, all inside the window. When refusing, it stores only the empty list of a new user |
| RateLimit.RateLimiter.Sweep | bot.js:604-614 | the loop over users leaves exactly the swept map |
| Analytics.Track | bot.js:540-551 | one tracked message adds one to the total and to exactly one of the AI and fallback counters. It adds the AI counter exactly when `isAI`, records the user, never decreases a counter and leaves errors alone |
| Analytics.TrackKeepsBalance | bot.js:540-551 | tracking keeps total = AI + fallback, media counts within the total, and unique users within the total |
| Analytics.SimpleAnalytics.constructor | bot.js:526-538 | all counters start at zero with no users |
| Analytics.SimpleAnalytics.TrackMessage | bot.js:540-551 | the counters after the call are the tracked snapshot, and stay balanced |
| Analytics.SimpleAnalytics.TrackError | bot.js:553-556 | counts one error and changes nothing else |
| Analytics.SimpleAnalytics.ValidIsBalanced | bot.js:527-551 | the object's invariant is exactly the balance of its counters |
| Sessions.GreetingFor | bot.js:784-788 | "Bom dia" exactly before noon, "Boa tarde" exactly from noon to before six, "Boa noite" exactly from six on; the initial "Olá" never survives |
| Sessions.CommandRules | bot.js:762-815 | an exact stop word pauses whatever the state. Otherwise an activation token anywhere activates. Otherwise an inactive session is silent and an active one is dispatched. Each holds in both directions |
| Sessions.Touched | bot.js:749-758 | the session is renewed to `now`; a new user gets an inactive session awaiting start, a known one keeps its flags |
| Sessions.Next | bot.js:762-782 | a stop leaves the session paused and stopped, an activation leaves it active, anything else leaves it unchanged |
| Sessions.NextKeepsConsistent | bot.js:749-782 | new sessions and every transition keep "answers exactly when active" |
| Sessions.GreetingKeywordActivates | bot.js:779 | every greeting keyword other than "hey" and "hello" is an activation token |
| Sessions.DispatchedGreetingSaysHey | bot.js:779-817 | a dispatched message classified as a greeting contains "hey" or "hello" |
| Sessions.OiActivates | bot.js:779-782 | "Oi!" activates a paused session |
| Ai.KeepNewest | bot.js:296-298 | the history is cut to its newest ten turns when longer, kept whole otherwise |
| Ai.AddTurnsKeepsNewest | bot.js:293-298 | adding user turns one at a time, trimming each time, leaves the newest ten of everything said, in order |
| Ai.KeepNewestConcat | bot.js:296-298 | trimming early and then appending gives the same trimmed history as appending first |
| Ai.LastTenTurns | bot.js:293-298 | whatever came before, ten or more user turns in a row leave exactly the last ten of them |
| Ai.UnrecordedCall | bot.js:293-318 | a call whose answer is not recorded adds just the user's turn and trims, exactly as `AddTurns` does for one turn |
| Ai.SuffixOfConcat | bot.js:296-298 | the newest turns of a history extended by at least that many turns are all among the added ones |
| Ai.Response | bot.js:300-320 | the answer is never empty; it is the model's text only when a model is configured and answered with a non-empty text, and then it always is; otherwise it is the fallback |
| Ai.CallSteps | bot.js:293-325 | the answer settled on before `if (response)` is the fallback for the non-model providers, the model's text when the call gets past its set-up (a Gemini model, or the OpenAI or Anthropic key) and answers, and empty otherwise. Exactly a non-empty one is recorded after the trimmed user turn, and the reply is it or, when empty, the fallback |
| Ai.UncallableFallsBack | bot.js:343-391 | a model provider whose call cannot get past its set-up ('google' without `this.model`, 'openai' or 'anthropic' without a key) throws; `generateResponse` catches it (bot.js:322-324), so the answer is always the fallback and only the user's turn is stored, whatever the provider would have said |
| Ai.NextHistory | bot.js:293-318 | after one call the history holds the user's turn and at most eleven turns |
| Ai.EndsOfAppend | bot.js:294-318 | appending the same turn to a history and the transcript keeps the history a final segment of the transcript |
| Ai.EndsOfKeepNewest | bot.js:296-298 | trimming keeps the history a final segment of the transcript |
| Ai.NextHistoryKeepsNewest | bot.js:287-326 | every call keeps the stored history the newest part of the transcript: a final segment of it, at least its last ten turns (or all of it when shorter) and at most eleven |
| Ai.StoreKeepsBound | bot.js:293-318 | storing a history of at most eleven turns keeps every stored history that short |
| Ai.TotalTurnsRemove | bot.js:518-519 | the total history size does not depend on which conversation is counted first |
| Ai.TotalTurnsBound | bot.js:518-519 | the total history size is at most eleven turns per conversation |
| Ai.StartProvider | bot.js:264-284 | the provider differs from the configured one exactly when `'google'` with an API key failed to initialise, and is then `'fallback'` |
| Ai.AIService.constructor | bot.js:263-285 | starts with no histories; remembers the configured provider; has a Gemini model exactly when `'google'` with a key initialised; can call its provider exactly when it has that model (for `'google'`) or the provider's key (otherwise); runs the start-up provider |
| Ai.AIService.GenerateResponse | bot.js:287-326 | returns the non-empty answer `Response` defines for what the call comes to once its set-up is checked, so an uncallable provider always gets the fallback; replaces only the caller's history, with the history one call produces; no stored history exceeds eleven turns |
| Ai.AIService.Converse | bot.js:288-321 | the body of `generateResponse` on the caller's history: the history it leaves and the answer it returns are those one call produces |
| Ai.AIService.ClearHistory | bot.js:510-512 | forgets exactly the one user's conversation |
| Ai.AIService.ClearAll | bot.js:955 | forgets every conversation |
| Ai.AIService.GetStats | bot.js:514-521 | reports the provider, the number of conversations and the total number of stored turns, which is at most eleven per conversation |
| Router.HandlerFor | bot.js:819-865 | image, gallery and location intents go to their media handlers, every other intent to the AI service, each in both directions |
| Router.Replies | bot.js:762-896 | only a silenced message gets no reply. A stop gets the pause notice and an activation the welcome with the greeting for the hour. An AI dispatch gets the answer, and a media dispatch ends with a confirmation exactly when the send succeeded |
| Router.CountedExactlyWhenServed | bot.js:808-869 | a message is counted exactly when it is welcomed, answered by the AI service or served a medium. It counts as an AI response exactly when answered. A failed media send counts as exactly one error. No counter goes down |
| Router.CountersStayBalanced | bot.js:808-869 | handling a message keeps the counters balanced |
| Router.HistoriesAfter | bot.js:762-865 | other users' histories are untouched and no other user gains one. A stop forgets the user's conversation. An AI dispatch leaves one holding the user's turn and at most eleven turns. Every other command leaves all histories exactly as they were |
| Router.SilenceChangesNothing | bot.js:812-815 | a silenced message gets no reply, is not counted and leaves the histories alone |
| Router.Idle | bot.js:988-992 | a session is idle exactly when its last message is more than two hours old |
| Router.RemovalKeepsRegistry | bot.js:991-995 | removing the same users from sessions and histories keeps every history attached to a session and every session consistent |
| Router.SweepStep | bot.js:991-995 | visiting one user during the sweep removes it exactly when it is idle |
| Router.AdminCommandsRecognised | bot.js:904-965 | each admin command is recognised by exactly its spellings |
| Router.Bot.constructor | bot.js:620-623 | the bot starts with no sessions, no rate-limit entries, no histories and zeroed counters, and with the AI service's configured and start-up providers, its Gemini model and its ability to call the provider |
| Router.Bot.HandleMessage | bot.js:735-898 | group and own messages change nothing. A rate-limited message gets only the slow-down warning. Otherwise the session, rate-limit entry, replies, histories and counters are those the command and the route define for the trimmed body, and the registry invariant is kept |
| Router.Bot.Serve | bot.js:749-896 | after the gate, the session is renewed and moved on by the command, and each command has its own replies, history change and counter change |
| Router.Bot.Touch | bot.js:749-758 | the user's session is created if missing and renewed to `now` |
| Router.Bot.Pause | bot.js:762-776 | a stop pauses the session and forgets exactly the user's conversation |
| Router.Bot.Activate | bot.js:780-809 | an activation switches the session on and counts one non-AI message |
| Router.Bot.ServeActive | bot.js:817-886 | the message goes to the handler its intent defines, with that handler's replies, history change and counter change |
| Router.Bot.ServeHandler | bot.js:819-886 | media requests touch no history. The rest get the AI answer, extend the caller's history as one call of the service does and count one AI message |
| Router.Bot.ServeAi | bot.js:862-886 | the AI handler replies with the service's answer, extends the caller's history as one call does and counts one AI message, fallback answers and failed provider calls included |
| Router.Bot.ServeMedia | bot.js:819-860 | each media handler's replies, and the media count or the error count, follow whether the send succeeded |
| Router.Bot.HandleAdmin | bot.js:901-983 | only the owner's messages are commands. `!clear` empties the sessions and the histories. `!stats` reports the counters, the running provider and the number of conversations. `!health` reports the configured provider, whether a Gemini model exists and the number of sessions. Nothing else changes |
| Router.Bot.EvictIdle | bot.js:986-997 | exactly the idle sessions are removed together with their histories, keeping the registry invariant |

## Left out

- HTTP endpoints, QR-code handling, session-file persistence, process
  handlers and logging are left out. They are I/O around the core.
- The WhatsApp transport, connection events and reconnection are left out.
  So is the `disconnected` event that clears `userStates` alone, which would
  leave histories without a session.
- The provider calls (Gemini, OpenAI, Anthropic), their prompt building and
  the Gemini `text.trim()` are left out. What a call comes to is the
  parameter `ProviderOutcome`, and the configuration is the constructor's
  `configured`, `apiKey` (whether the configured provider's key is set) and
  `googleInitFails`. A provider call that cannot get past its set-up is
  modelled as one that throws (`Ai.CallOutcome`).
- Each media sender's result is the boolean `mediaOk`. A failed send counts
  one error, as the sender's own `catch` does. Which gallery pictures exist
  on disk, and pictures sent before a gallery failure, are not modelled
  (`GalleryPhotos`).
- Timers are left out. `RateLimiter.Sweep` and `Bot.EvictIdle` are the
  bodies of the two `setInterval` callbacks, run at a given `now`. All clock
  readings within one handled message are one `now`.
- `SimpleAnalytics.getStats`'s uptime and success-rate formatting and
  `startTime` are left out. So are the process uptime, memory use and
  connection state that `!health` and `!stats` print. The wording of every reply and report is also
  out; replies are the `Outbound` and `AdminReply` values.
- Text.Lower: lowers only the ASCII and Latin-1 capitals, the letters of
  the bot's Portuguese keywords. Every other character is left as it is,
  including Latin Extended capitals such as 'Ā', 'Ł' and 'Œ', and the
  length never changes. JavaScript lowers those too, and lowers 'İ' to two
  code units.
- Fallback.TemplateText: each template is reduced to its heading line. The
  bodies are the agency's configured prices, address and contacts.
- The handler's outer `catch` and the AI branch's inner `catch` are left
  out. Nothing in the model throws: `generateResponse` never returns an
  empty answer, so only a transport failure of `msg.reply` could reach
  either.
- `analyzeIntent`'s `stop` intent has no handler of its own. Exact stop
  words are consumed before classification. A dispatched message that only
  contains one (e.g. "quero parar") is classified `stop` and goes to the AI
  service, like every intent other than image, gallery and location.
- Interleaving is left out. The source handler is `async` and waits at the
  provider call, media sends and replies. Other messages and the sweeps can
  run during those waits. The model handles each message, admin command and
  sweep to completion, one after another. What it therefore does not
  capture:
  - Two AI-routed messages from one user in quick succession can both push
    their user turn before either answer arrives. The history can then reach
    twelve turns, ordered u1, u2, a1, a2. `Ai.NextHistoryKeepsNewest` and
    the eleven-turn bound in `Ai.AIService.Valid` assume calls that do not
    overlap.
  - A stop word, `!clear` or the idle sweep can delete a history while a
    provider call for that user is pending. The answer is still sent and
    counted, and it is pushed onto the detached array, not the stored map.
- The router always calls `trackMessage(userId, true)` after an AI-branch
  answer, even when that answer is the keyword fallback. The model keeps
  this: `aiResponses` counts fallback answers too. A failed provider call
  counts no error either: `generateResponse` absorbs the failure in its
  own `catch` (bot.js:322-324) and returns the fallback, so the router only
  reaches `trackMessage(userId, true)` (bot.js:869).
