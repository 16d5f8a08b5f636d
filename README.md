# Tone-aware WhatsApp bot: a verified model of its message logic

This project is a Dafny model of the message logic of a WhatsApp group bot. The bot has two parts:

- a Node.js client (`main.js`). It keeps a short history per chat and flags senders who flood a group. It gates commands behind an allow-list and dispatches `!` commands. It runs a cancellable "spam" broadcast, and it answers conversationally through an inference service;
- a Flask inference server (`hf_inference_server.py`). It wraps a model call with retry and exponential backoff, and post-processes the model's text for each route.

Every collaborator is a parameter of the model:

- **HTTP calls, group metadata and the news feed.** Each is an abstract response: `Failed` or `Ok(body)`, where a body field may be absent.
- **The clock and the random draw.** Both are plain inputs.
- **The model call on the server.** It is a sequence of per-attempt outcomes.

The code that changes state in place keeps that form:

- **The per-chat history** is a class `Ledger.ChatLedger` whose map field is updated by `Append`.
- **The two broadcast globals** (`stopSpam`, `spamInitiatorId`) are a class `Broadcast.Controller`. Its `HandleSpamCommand` runs the counted loop.
- **The news digest and the retry policy** are methods with loops: `News.SendDailyNews` and `Gemini.CallGemini`.
- **One step of the bot** is `Pipeline.Bot.HandleMessage`. It records the message in the ledger, passes the gates, and then either dispatches a command or answers conversationally. An accepted `!spam` runs the whole broadcast on the controller within that step. The stop requests that arrive during the broadcast's pauses are an input of the step.

Each method is proved equal to a specification function, and the properties are proved about those functions.

Modules, one file each:

- `text.dfy`: string helpers: ASCII lower-casing, trim, `split(c)[0]`, join/split, decimal digits.
- `outbound.dfy`: `Option`, `Response` and the outbound `Action`. An action is a send with mentions, or a call to a named handler.
- `ledger.dfy`: the history ledger.
- `spam_detector.dfy`: the flood check.
- `spam_args.dfy`: the `!spam` argument grammar.
- `broadcast.dfy`: the broadcast controller and the stop branch.
- `replies.dfy`: the reply builders.
- `news.dfy`: the news digest.
- `commands.dfy`: command parsing and dispatch.
- `pipeline.dfy`: the inbound pipeline.
- `connection.dfy`: the reconnect decision.
- `gemini.dfy`: the retry policy.
- `routes.dfy`: the Flask routes.

Behaviour of the code as written, which the model keeps:

- An incoming message is recorded in the history before the authorization gate, so unauthorized private messages are recorded too. The flood check therefore counts the message being checked.
- An unauthorized group member who does not send a command goes through the rest of the pipeline like anybody else.
- There is no guard against a second broadcast.
- A broadcast that completes normally leaves its initiator set.
- A cancellation seen inside the loop is still followed by "Spam complete!".
- A stop request after the last send is never observed. The flag then stays raised.
- The context for a conversational reply is built from the history, which already holds the latest message, plus that message again. So the latest text is the last two lines of the context.

## Model

| member | source | states |
|---|---|---|
| Ledger.ChatLedger.Append | main.js:346-355 | after recording `e` in chat `jid`: that history is the old one with `e` pushed and, above 20 entries, the oldest dropped. `e` is last, the length stays ≤ 20 and every other chat's history is unchanged |
| Ledger.ChatLedger.constructor | main.js:30 | the ledger starts empty |
| Ledger.Appended | main.js:346-355 | the history after one message ends with it. For a history within capacity it is exactly the last 20 entries of the old history followed by the message, so it grows by one below capacity and keeps its length at capacity |
| Ledger.AppendedWithinCapacity | main.js:346-355 | one append keeps the capacity and puts the entry last. At capacity it drops exactly the first entry, keeping the rest in order; below capacity it only appends |
| Ledger.LastNOfLastN | main.js:350-353 | trimming to the last n entries before further appends does not change the last n entries afterwards |
| Ledger.AppendAllKeepsWindow | main.js:346-355 | any run of appends leaves exactly the last 20 messages of the whole stream, in arrival order |
| Ledger.CapacityPlusOne | main.js:346-355 | 21 messages into a new chat leave messages 2..21 in order |
| SpamDetector.CheckSpam | main.js:364-377 | a chat with no history is never flagged |
| SpamDetector.FromSender | main.js:367 | keeps exactly the entries sent by the sender, and no more entries than the history holds |
| SpamDetector.FromSenderCounts | main.js:367 | every entry from the sender is kept as many times as the history holds it, and entries from anyone else are dropped |
| SpamDetector.FromSenderAppend | main.js:367 | the filter keeps history order: filtering two runs one after the other gives their filtered parts in the same order |
| SpamDetector.WithinWindow | main.js:370 | keeps exactly the entries stamped less than 5000 ms before now, and no more entries than it is given |
| SpamDetector.WithinWindowCounts | main.js:370 | every recent entry is kept as many times as the list holds it, and older entries are dropped |
| SpamDetector.WithinWindowAppend | main.js:370 | the filter keeps order: filtering two runs one after the other gives their filtered parts in the same order |
| SpamDetector.FilteredCountIsRecentCount | main.js:367-371 | the sender filter followed by the window filter counts exactly the positions holding a message from the sender stamped less than 5000 ms before now |
| SpamDetector.RecentIndicesSnoc | main.js:367-371 | a new entry adds its own position to the sender's recent positions iff it is theirs and recent, and changes nothing else |
| SpamDetector.SpamIffThreshold | main.js:364-377 | flagged iff the chat has a history and it holds at least 5 recent messages from the sender: 4 is not enough, 5 is |
| SpamDetector.SpamRightAfterRecording | main.js:364-377 | right after the pipeline records a message stamped now, the sender is flagged iff at least 4 of their earlier recent messages survive among the 19 newest entries |
| SpamArgs.RunFacts | main.js:648 | the greedy run of one character class is maximal: all its characters are in the class and the next one is not |
| SpamArgs.TailAt | main.js:648 | a tail match starts at a double quote and carries the target it was given |
| SpamArgs.TailAtWellFormed | main.js:648 | a match of `"([^"]+)"\s+(\d+)` captures a non-empty quote-free body and non-empty digits |
| SpamArgs.MatchAt | main.js:648 | a match at a position carries a target iff that position holds `@` |
| SpamArgs.MatchAtWellFormed | main.js:648 | a match at a position, optional `@digits` group first, captures well-formed groups |
| SpamArgs.SearchIsLeftmost | main.js:648 | the search reports the match at the leftmost matching position at or after its start, with no match at any position before it. It reports no match only when no position matches |
| SpamArgs.SearchWellFormed | main.js:648 | the leftmost match of the unanchored expression captures well-formed groups |
| SpamArgs.ParseSpamArgs | main.js:648-666 | an accepted command has a count in 1..20, a non-empty body without quotes and at most one mention, which is `digits@s.whatsapp.net` |
| SpamArgs.NoQuoteNoMatch | main.js:648 | without a double quote, no position matches |
| SpamArgs.NoQuoteIsMalformed | main.js:648-652 | arguments without a double quote get the usage message |
| SpamArgs.RunIs | main.js:648 | a run of n class characters followed by a non-class character has length exactly n |
| SpamArgs.QuotedTailAt | main.js:648 | a quoted tail placed after any prefix has its quotes, body, space and digits at the positions the matcher reads |
| SpamArgs.TailOfRender | main.js:648 | the tail of a rendered command matches with its own body and digits |
| SpamArgs.TailOfLayout | main.js:648 | wherever a quoted body, a space and digits are laid out, the tail matcher returns exactly that body and those digits |
| SpamArgs.TailAtRuns | main.js:648 | the tail matcher reads back the body, blank run and digit run it is given |
| SpamArgs.RenderMatches | main.js:648 | the leftmost match of a rendered `[@t ]"body" digits` returns its target, body and digits |
| SpamArgs.ParseRender | main.js:648-666 | round trip: a rendered command with count in 1..20 is accepted with its own body, mention and count |
| SpamArgs.ParseRenderTooMany | main.js:656-661 | a well-formed command with count 0 or above 20 gets the range message |
| SpamArgs.ExampleWithMention | main.js:648-666 | `@123 "hello world" 5` sends "hello world" 5 times mentioning `123@s.whatsapp.net` |
| SpamArgs.ExampleCountTooLarge | main.js:656-661 | `"hi" 21` gets the range message |
| SpamArgs.ExampleUnquoted | main.js:648-652 | `hi 3` is malformed |
| Broadcast.StopBranch | main.js:262-276 | with no initiator: "No spam is running". The initiator raises the flag and is told so. Anyone else gets "Only the person who started the spam can stop it. Initiator: @" followed by the initiator's phone (the id before '@'), mentioning exactly the initiator, without the flag raised |
| Broadcast.StopOnlyByInitiator | main.js:262-276 | the stop branch changes the flag only when the sender is the current initiator |
| Broadcast.AfterStop | main.js:262-276 | a stop request during a pause: the initiator is kept, the flag is raised iff it was raised or the sender is the initiator, and the reply is exactly the stop branch's reply, sent to the requester's chat |
| Broadcast.SpamLoop | main.js:671-679 | the loop from iteration i keeps what was sent so far as a prefix and adds at most one send and one stop reply per remaining iteration. It ends with the initiator unchanged, or with both globals cleared |
| Broadcast.SpamCommand | main.js:642-684 | the command sends at least one message and at most 2 × 20 + 1. It changes the globals only in a group with accepted arguments; then the initiator is the participant, or both globals are cleared |
| Broadcast.Controller.RequestStop | main.js:262-276 | the stop branch on the class fields: new fields and reply are those of the specification, the initiator is untouched and the flag changes only for the initiator |
| Broadcast.Controller.HandleSpamCommand | main.js:642-684 | the loop method computes the messages and the final globals of the specification, with stop requests arriving between iterations |
| Broadcast.Controller.constructor | main.js:28-29 | the flag starts false and the initiator null |
| Broadcast.Repeat | main.js:671-679 | `count` copies of the same send |
| Broadcast.RejectedLeavesState | main.js:643-661 | outside a group, with malformed args or with a count out of range, exactly one explanation is sent and both globals are unchanged |
| Broadcast.NoSecondRunGuard | main.js:668-669 | what the command sends does not depend on the globals, and an accepted command overwrites them whatever they were |
| Broadcast.UninterruptedLoop | main.js:671-679 | without stop requests the loop sends the text once per remaining iteration |
| Broadcast.NormalCompletion | main.js:668-683 | normal completion sends the text `count` times and then "Spam complete!". The flag ends false and the initiator stays set |
| Broadcast.Quiet | main.js:671-679 | k pauses without stop requests |
| Broadcast.QuietPrefix | main.js:671-679 | quiet pauses just add sends |
| Broadcast.CancelSeenInLoop | main.js:671-683 | an initiator's stop after send k+1 (more to go): k+1 sends, the acknowledgement, then "Spam complete!". Both globals are cleared |
| Broadcast.CancelAfterLastSend | main.js:671-683 | an initiator's stop after the last send: all sends and the acknowledgement, no completion message. The flag stays raised and the initiator set |
| Replies.JokeText | main.js:473-483 | on success: the laughing-face marker followed by exactly the joke, or by the fallback line when the joke is empty, and nothing else. On failure: the apology |
| Replies.FactText | main.js:516-525 | on success: the "Did you know?" marker followed by exactly the fact, or by the fallback line, and nothing else. On failure: the apology |
| Replies.QuoteType | main.js:622 | the type is "motivational" iff the draw is below 0.5, else "funny" |
| Replies.QuoteText | main.js:620-633 | only the quote itself is sent, or the fallback line; failure gives the apology |
| Replies.RoastReply | main.js:491-509 | no mention: ask whom to roast. Otherwise the first mentioned user is the only mention. The text is exactly the opening with their phone number, then the roast (or the fallback) and the fire emoji. Failure gives the apology |
| Replies.ToneAwareAction | main.js:443-463 | a non-empty custom message is sent verbatim with no inference call; otherwise the tone reply is requested |
| Replies.ByToneText | main.js:449-460 | the generated reply when non-empty, "Wanted to say something {tone}…" when empty, "Sorry, can't generate a {tone} reply." on failure; never empty |
| Replies.Texts | main.js:419 | the texts of the history, position by position |
| Replies.ContextWindow | main.js:419-420 | the window is the last min(10, n+1) of the history texts followed by the latest text, and ends with the latest text |
| Replies.ReplyContext | main.js:419-420 | the context ends with the latest text |
| Replies.ReplyContextJoin | main.js:419-420 | the context is the window's texts joined with newlines whatever they hold: a one-text window is that text, a longer one is the join of all but the last, a newline, then the latest text |
| Replies.ReplyContextLines | main.js:419-420 | when no text holds a newline, splitting the context on newlines gives back exactly the window |
| Replies.ContextReplyText | main.js:418-434 | the service's reply verbatim, or the apology on failure |
| Replies.Classify | main.js:396-404 | funny/roasting wins over chill/casual, which wins over serious/emotional, each an if-and-only-if on substring occurrence |
| Replies.MoodSentence | main.js:396-404 | the sentence is exactly the class's fixed opening followed by the service's phrase when it is non-empty, and otherwise by the class's default phrase |
| Replies.MoodRequest | main.js:389 | the request text starts with the oldest remembered text and ends with the newest |
| Replies.MoodRequestSingle | main.js:389 | one remembered message is sent as its text alone |
| Replies.MoodRequestSnoc | main.js:389 | each further message adds one space and its text at the end, so every remembered text is sent, oldest first, separated by single spaces |
| Replies.MoodRequestNotEmpty | main.js:389 | a history whose oldest message has text gives a non-empty request |
| Replies.AnalyzeGroupMood | main.js:384-409 | no or empty history: "No khaas conversation". Failure or a missing mood: the confused apology. Otherwise the class's sentence with the phrase or its default |
| Replies.GroupMoodText | main.js:532-539 | outside groups: "only works in groups"; otherwise "Current mood: " and the analysis |
| Replies.MentionIds | main.js:558-559 | the mentions are the participants other than the bot, each as many times as it occurs, and the bot is never among them |
| Replies.MentionIdsSnoc | main.js:558-559 | the filter keeps participant order: one more participant adds its id at the end, unless it is the bot |
| Replies.FirstTag | main.js:562 | the first position at which `!tag` occurs ignoring case, with none before it |
| Replies.StripTagCommand | main.js:562 | the leftmost `!tagall`/`!tag` (case-insensitive, long form preferred) is cut out, and nothing else changes |
| Replies.TagAllReply | main.js:547-572 | outside groups: refusal. Metadata failure: apology. Otherwise it mentions everyone but the bot, with the extended text minus the command (trimmed) or the default line |
| Replies.TagAllCustomText | main.js:562 | `!tagall rest` leaves `rest`, and a bare `!TAG` leaves nothing |
| News.SummaryAt | main.js:598-601 | the answer of summary call i; calls with no answer supplied count as failed |
| News.NewsItemLayout | main.js:603-605 | an entry is exactly three lines in order: its 1-based number and the summary (or the title when the summary is empty), the source line, and the link line |
| News.TopArticles | main.js:588 | only the first five headlines are used |
| News.DailyNews | main.js:579-613 | no key: "not configured". Fetch failure: the catch message. No headlines: "Couldn't find any news" |
| News.ItemsFailIff | main.js:596-611 | the entries fail iff one of their summary calls failed |
| News.ItemsLayout | main.js:596-606 | the entries appear in article order, entry m right after the first m |
| News.ItemsOnlyReadSummaries | main.js:596-606 | the entries depend only on the summary answers for their own articles |
| News.FirstFiveOnly | main.js:588-606 | headlines and summary answers past the fifth never change the message |
| News.DigestOutcome | main.js:586-611 | with a key and headlines, any failed summary gives the catch message; otherwise the header is followed by the entries |
| News.SendDailyNews | main.js:579-613 | the loop method sends exactly the digest of the specification |
| Commands.MyId | main.js:226-227 | the bot id is the longest prefix of the user id without ':' (up to the first ':', or all of it), followed by `@s.whatsapp.net` |
| Commands.MyIdOfDeviceId | main.js:226-227 | `phone:device` gives `phone@s.whatsapp.net` |
| Commands.ParseCommand | main.js:280-281 | the command is the text up to the first space, lower-cased; the arguments are the rest after that many characters, trimmed |
| Commands.ParseCommandWords | main.js:280-281 | `WORD rest` parses to the lower-cased word and the trimmed rest |
| Commands.ParseBareCommand | main.js:280-281 | a text without a space is a command with empty arguments |
| Commands.Dispatch | main.js:283-315 | a handler is called iff the word is one of the ten known commands. Each word calls its own handler: `!tag`/`!tagall` share one, `!spam` gets the participant and args, `!roast` the mentions. Anything else sends the fixed "Didn't understand" line |
| Commands.TagAliases | main.js:296-298 | `!TAG x` and `!tagall x` dispatch identically |
| Pipeline.FirstTruthy | main.js:213 | the text is the first truthy field, and none before it is truthy |
| Pipeline.ExtractText | main.js:213 | the text is the conversation if truthy, else the extended text if truthy, else the image caption if truthy, else the video caption if truthy, else no text; a text found is never empty |
| Pipeline.SenderOf | main.js:224 | the participant when truthy, otherwise the chat id |
| Pipeline.Conversational | main.js:317-327 | exactly one greeting iff the text contains "good morning" or "good night" in any case, and good morning wins. The generated reply comes last iff the bot is mentioned or the chat is private. Nothing else is sent |
| Pipeline.Process | main.js:206-339 | a message without text, or from the bot, records nothing, sends nothing and keeps the globals. Any other message is recorded as (sender, text, now), before any gate. A message other than `!spam` causes at most two actions |
| Pipeline.ProcessBounds | main.js:206-339 | no message causes more than 2 × 20 + 1 actions, and the globals change only for a stop request mentioning the bot or for `!spam` |
| Pipeline.ReactBounds | main.js:237-330 | the same bounds for the steps after recording |
| Pipeline.RespondBounds | main.js:279-330 | past the gates, a message other than `!spam` causes at most two actions and keeps the globals. A broadcast causes at most 2 × 20 + 1 |
| Pipeline.UnauthorizedPrivateIsSilent | main.js:237-242 | an unauthorized private sender is recorded and gets no reply |
| Pipeline.UnauthorizedGroupCommandRefused | main.js:243-247 | an unauthorized group sender's command gets exactly one refusal |
| Pipeline.UnauthorizedGroupChatContinues | main.js:237-248 | an unauthorized group sender without `!` is treated exactly as an authorized one |
| Pipeline.FloodWarnedAndStopped | main.js:250-258 | a flooding group sender gets exactly the one warning and nothing else runs |
| Pipeline.StopBranchPreemptsCommands | main.js:262-276 | a stop request mentioning the bot gets only the stop branch's reply and state change, even when it starts with `!` |
| Pipeline.CommandsOnlyFromBang | main.js:279-330 | every handler a message calls is the conversational reply unless its text starts with `!` |
| Pipeline.ReactCalls | main.js:237-330 | the same, for the steps after recording |
| Pipeline.JokeFromPrivateChat | main.js:206-286 | `!joke` from an authorized private sender is recorded and calls only the joke handler |
| Pipeline.ReactPrivateCommand | main.js:237-315 | an authorized private command other than `!spam`, mentioning nobody, goes straight to the switch |
| Pipeline.SpamDispatchRunsBroadcast | main.js:306-307 | an admitted `!spam` runs the broadcast command from the current globals: its sends and the globals after it are those of the broadcast |
| Pipeline.ReactSpam | main.js:279-307 | the same, for the steps after recording |
| Pipeline.SpamWordStartsWithBang | main.js:279-280 | only a text starting with `!` has the command word `!spam` |
| Pipeline.InitiatorStopsAfterBroadcast | main.js:262-307 | a broadcast that finishes leaves its initiator set, so the initiator's later stop request is acknowledged and raises the flag |
| Pipeline.ContextRepeatsLatest | main.js:419-420 | the latest text is both of the last two lines of the reply context |
| Pipeline.Bot.HandleMessage | main.js:206-355 | one message updates the ledger and the broadcast globals and returns the actions, all as `Process` says, including a whole `!spam` broadcast |
| Pipeline.Bot.ReactTo | main.js:237-276 | the gates on the class fields: the actions and the new globals are those of the specification against the updated histories |
| Pipeline.Bot.RespondTo | main.js:279-330 | the switch and the conversational replies on the class fields, with `!spam` run on the controller, as the specification says |
| Pipeline.Bot.constructor | main.js:28-30 | empty histories, flag false, no initiator |
| Connection.OnUpdate | main.js:135-157 | reconnect iff the update closes the connection with a status code other than 401. Schedule the jobs iff it opens |
| Connection.OnlyLogoutEndsSession | main.js:144-151 | a close ends the session only with the logout code, and a close without an error reconnects |
| Gemini.Retry | hf_inference_server.py:26-49 | the status is 200 or 500, and fewer sleeps than remaining attempts |
| Gemini.CallGeminiBounds | hf_inference_server.py:26-49 | the call answers 200 or 500 and sleeps fewer times than it may attempt. Without a positive retry budget it gives up at once with the exhausted message |
| Gemini.SleepsDouble | hf_inference_server.py:39-43 | the k-th sleep is the initial delay times 2^k |
| Gemini.DefaultBackoff | hf_inference_server.py:26-45 | with the defaults and all requests failing: sleeps 1, 2, 4, 8, then the max-retries message with status 500 |
| Gemini.SuccessIff | hf_inference_server.py:28-45 | status 200 iff some attempt within the budget is well structured and all before it failed as requests; the text returned is that of the first such attempt |
| Gemini.NoRetryOnOtherErrors | hf_inference_server.py:34-48 | a malformed body or another exception ends the call at once with 500 and no sleep |
| Gemini.CallGemini | hf_inference_server.py:26-49 | the loop method returns the text, status and sleeps of the specification |
| Routes.Relay | hf_inference_server.py:58-61 | a non-200 model status is relayed with the message under "error" and never the success key |
| Routes.JokeRoute | hf_inference_server.py:54-61 | the model is asked the fixed joke prompt; its answer is relayed under "joke", or its failure as an error |
| Routes.RoastRoute | hf_inference_server.py:63-71 | the model is asked the fixed roast prompt; its answer is relayed under "roast", or its failure as an error |
| Routes.FactRoute | hf_inference_server.py:73-80 | the model is asked the fixed fact prompt; its answer is relayed under "fact", or its failure as an error |
| Routes.ParseMood | hf_inference_server.py:96-102 | a result without a space is all mood word (lower-cased, stripped) with an empty phrase |
| Routes.ParseMoodAtFirstSpace | hf_inference_server.py:96-102 | with the first space at k: the mood is the text before k lower-cased and stripped, the phrase the stripped text after it |
| Routes.ParseMoodOfWordAndPhrase | hf_inference_server.py:96-102 | `word phrase` parses back to the lower-cased word and the phrase |
| Routes.AnalyzeMoodRoute | hf_inference_server.py:82-104 | empty or absent text: 400 "No text provided", without asking the model. Otherwise the model is asked the mood prompt for the text. A failure is relayed; on success the mood and phrase fields are the parse of its answer |
| Routes.BotMoodRequestReachesModel | hf_inference_server.py:82-104 | the bot's mood request for a chat whose oldest message has text is never refused as empty: the model's answer, or its failure, comes back |
| Routes.FunnyModelAnswer | hf_inference_server.py:96-102 | an answer `Funny <phrase>` is classified funny by the bot, with that phrase |
| Routes.NormalizeReply | hf_inference_server.py:120-123 | the stripped reply, or "I didn't understand anything. Say it again." when nothing is left; never empty |
| Routes.NormalizeKeepsCleanReply | hf_inference_server.py:120-123 | an already stripped, non-empty reply is unchanged |
| Routes.ToneAwareReplyRoute | hf_inference_server.py:106-125 | empty or absent context: 400 "No context provided". Otherwise the model is asked the tone-aware prompt for the context. A failure is relayed; on success the normalised, never empty, reply |
| Routes.FieldOr | hf_inference_server.py:130 | a posted field, or the default when the field is absent |
| Routes.ReplyByToneRoute | hf_inference_server.py:127-136 | the model is asked for a message in the posted tone, "chill" when absent. Its answer is relayed under "reply" as it is, or its failure as an error |
| Routes.DefaultToneIsChill | hf_inference_server.py:130 | an absent tone behaves exactly like the posted tone "chill", and a posted tone, even empty, is used as it is |
| Routes.SummarizeNewsRoute | hf_inference_server.py:138-149 | empty or absent title: 400 "No title provided". Otherwise the model is asked the summary prompt for the title; its answer is relayed under "summary", or its failure as an error |
| Routes.QuoteRoute | hf_inference_server.py:151-160 | the model is asked for a quote of the posted type, "motivational" when absent. Its answer is relayed under "quote", or its failure as an error |
| Routes.DefaultQuoteTypeIsMotivational | hf_inference_server.py:154 | an absent type behaves exactly like the posted type "motivational", and a posted type is used as it is |
| Routes.ModelFailureRelayed | hf_inference_server.py:26-61 | a failed model call reaches the client as status 500 with only an "error" field |
| Text.Trim | main.js:281 | trim: a slice with only whitespace around it, neither starting nor ending with whitespace |
| Text.Before | main.js:280 | `split(c)[0]`: the longest prefix without `c` |
| Text.SplitJoin | main.js:420 | splitting newline-joined lines gives them back when none holds a newline |
| Text.JoinSnoc | main.js:389 | joining one more item adds the separator and the item at the end |
| Text.DigitsRoundTrip | main.js:656 | parsing the decimal rendering of n gives n |

## Left out

- Socket creation, QR display, authentication state in MongoDB or files, event subscription and the real sends: I/O. The model returns the actions a message causes instead of sending them.
- Cron scheduling of the daily news and quote, and the Express health endpoint: timers and an HTTP server. `Connection.OnUpdate` only says when jobs are scheduled.
- The static help text: it is a constant with no logic. `!help` is modelled as a call to its handler.
- The HTTP and model calls themselves: each is an abstract response. For the news digest, the summary answers are given in advance, and calls without one count as failed.
- Flask routing and JSON (de)serialisation: a posted field is passed as a string (absent counts as empty) or an option. `request.json` being absent is not modelled.
- Real asynchronous interleaving. At most one stop request can arrive in each pause of a broadcast, and it is handled within that pause. Two broadcasts running at once, and messages other than stop requests during a broadcast, are not modelled.
- Broadcast.SpamLoop: a stop request that arrives during a pause only runs the stop branch. It is not recorded in the history, and it is not checked against the allow-list or the flood detector. In the code it goes through the whole pipeline, so it is recorded, and the earlier gates can answer it instead.
- Routes: the model call is a function from prompt to `(text, status)`. So one prompt always gets the same answer, and the retry policy is modelled separately in `Gemini`.
- Pipeline.Process: both `Date.now()` reads, the recorded timestamp and the flood check, use one instant `now`.
- Text.Lower: only ASCII letters are lower-cased. `toLowerCase()` and Python's `lower()` also map other letters, and can change a string's length.
- SpamArgs.ParseSpamArgs: `\s` is the ASCII whitespace set of `Text.IsSpace`. JavaScript's `\s` also matches other Unicode spaces, such as the no-break space.
- Text.Trim: one whitespace set (space, tab, newline, carriage return, vertical tab, form feed) stands for both JavaScript `trim()` and Python `strip()`. Both also strip other Unicode spaces.
- Connection.OnUpdate: the logout code is the constant 401 of the WhatsApp Web client library. The library is not part of this model.
- Replies.ContextReplyText: a successful reply whose body lacks `reply` is not modelled. The server always sends the field.
- Replies.AnalyzeGroupMood: a mood that is not a string is not modelled. A missing one is, as the caught error it causes.
- Replies.TagAllReply: the unused `mentionText` is not computed. Participants are their ids.
- Gemini.CallGemini: which exception a failed attempt raises is an input. The input says whether it is a request exception or another error, and whether a body has the expected structure. A body that is not JSON, or a part without `text`, falls in those classes.
- firebase.js: it only holds stubs that log warnings, and is not part of this model.
