# Verified model of the gateway's hard core

A Dafny 4.11 model of the parts of the repository where state, time and protocols
interact: the credit-budget engine of the burner, the translators between the Anthropic,
Responses and chat protocols, the credential pool, the SSE reader, the configuration
watcher and the delete splice of the configuration writer.

Where the source works by updating state, the model does too: `AccountState`, `Burner`,
`Translator`, `StreamAssembler`, `ResponsesAssembler`, `Credential`, `AffinityMap`,
`RoundRobin` and `ConfigWatcher` are classes, and the loops of the source are loops with
invariants. Each such method is proved equal to a function of the old state; what the
source promises is then proved about those functions, over every input, every stream or
every run. The modules whose names end in `Fields`, with `Spending`, `Penalties` and
`KeyRest`, state the outcome once more from the outside: in terms of the fields that go in
and the results that come out, without the functions that compute them.

| module | models |
|---|---|
| `Ledger`, `AccountBudget` | time-stamped debits, the four window models, when a window lets go |
| `Spending` | what debits add up to in a stretch of time, the reference for windows and budgets |
| `Accounts`, `BurnerRun` | accounts and keys of the burner; all interleavings of workers, completions, errors, rebalances and clock ticks |
| `Penalties` | what each outcome of a request and each quiet minute does to an account and its keys |
| `ToolHistory`, `ToolRounds`, `ToolFields` | the Responses transcript translator and its five buffers; when rounds stay together, that nothing is lost or invented, and which ids, outputs and contents stand where |
| `ChatStream`, `MessagesStream`, `AnthropicStream`, `ResponsesStream` | stream assemblers, what a client reads from them, the adapter's own stream |
| `ChunkFields`, `AdapterFields` | what those streams convey, read off the fields of chunks and upstream events |
| `AnthropicHistory`, `TurnFields` | histories from Anthropic to chat messages and back; what becomes of every text, call and result of a turn |
| `SseLines` | the line reader of SSE and NDJSON responses and the printer |
| `KeyHealth`, `KeyRest`, `Affinity` | health transitions and the rate-limit ladder, when a key that failed is handed out again, the session map |
| `Rotation`, `RotationFields`, `Pool`, `PoolFields` | rotation orders; the candidate list with its lazy refresh and pin, and the pick |
| `ConfigWatch`, `ConfigWriter` | the debounce automaton, the line-splice delete |

Times and credits are `real`. Floats are not modelled; nothing proved here depends on
rounding. One clock reading serves a whole step. Configuration is fixed during a run.

## Where the code does not do what it sets out to do

The model keeps the code as it is. Each of these but the comment of `_priority_key` comes
with its exact condition, as an if-and-only-if over all inputs, and with a named input besides.

- Calls that are sent while earlier calls are open tear the earlier round apart.
  `AdjacencyIsExact`: rounds stay together if and only if this never happens;
  `InterleavedRoundIsSplit` is a transcript.
- The completed output of a Responses stream lists the text first, so its order is not
  always that of the output indices. `OutputOrder`: it is, if and only if no tool fragment
  comes in an earlier chunk than the first text; `CallThenText` is a stream.
- `delete_list_entry` promises that other entries and their comments stay byte for byte, but
  its search also matches an item of a list nested in an entry, and the comments it takes
  with an entry can be the last lines of the entry above (a commented-out option, written
  at the options' column). `OtherEntriesStay`: every other entry of the section's own list
  keeps its lines if and only if the first match stands at that list's indentation and, if
  it is not the first entry, no comment right above it is deeper than that.
  `CommentOfTheNeighbourGoes`, `NestedMatchTakesTheNextEntry`, `NestedMatchTakesALine` and
  `NestedMatchLeavesTheWantedEntry` are four files. `BelowItsItem` says when the cut takes
  only deeper lines below its item, and entries written at column 0 are never found
  (`ColumnZeroIsNeverDeleted`).
- A key revived after a 401/403 forgets its failures but keeps its rung of the 429 ladder.
  `BoundIsExact`: hand-outs can take a run past the ladder's bound if and only if one of its
  steps revived the key like that; `FatalErrorKeepsTheRung` is a run.
- SSE frames without a separator can merge, split or inherit an event name. `ReadingIsExact`
  says for every list of frames when they are read back; `HalfPayloadRunsOn` and
  `EventNameIsInherited` are two lists that are not.
- An image or remark that is held back during a tool round can end up behind later messages.
  `OrderIsExact`: the order is kept if and only if no message is read while something is
  held back, and no image is held back behind a remark; `ImageIsOvertaken` is a transcript.
- The comment of `_priority_key` in app/credentials/rotation.py:34 puts the longest unused key
  before the one with fewest failures; the code compares failures first, and so does the model.
- The debounce is skipped in one case, when every watched file vanishes at once while
  nothing is pending (`VanishedFilesAreAdoptedAtOnce`, with `OneFileVanishes` as a run of one
  poll); nothing is reloaded by it.

## Model

| member | source | states |
|---|---|---|
| Ledger.WindowStartBounds | scripts/burn_sensenova.py:234-239 | the fixed window found for a moment contains it: start <= now < start + length |
| Ledger.WindowStartSteps | scripts/burn_sensenova.py:225-239 | the start of a fixed window does not move before its end and is at or past that end afterwards |
| Ledger.WindowForgets | scripts/burn_sensenova.py:244-249 | with a frozen ledger, in every window mode, what counts as burned never grows as time passes |
| Ledger.SortedBurn | scripts/burn_sensenova.py:285-286 | sorting the live debits changes the burn of no window |
| AccountBudget.AnchoredRelease | scripts/burn_sensenova.py:271-282 | a fixed window over its limit is short until exactly its end and free from then on |
| AccountBudget.RollingReleaseAt | scripts/burn_sensenova.py:284-301 | a rolling window is short until exactly the debit whose prefix sum covers the excess rolls out, and free from then on |
| AccountBudget.TwoLimits | scripts/burn_sensenova.py:251-327 | combining both limits: sound (free from the latest candidate on) and tight (short before it, up to the padding) |
| AccountBudget.WeekWindowIsExact | scripts/burn_sensenova.py:225-266 | for any moment from the epoch on, reading a week start of 0.0 as "no anchor" gives another window if and only if the anchor is a nonzero whole number of weeks and the moment lies in the first week |
| Spending.AvailableIsAffords | scripts/burn_sensenova.py:251-266 | the credits an account may commit cover a cost if and only if, summing the debits themselves, both stretches of time hold no more than their caps with that cost on top |
| Accounts.AccountState.RollingCandidate | scripts/burn_sensenova.py:284-301 | a candidate appears exactly when the window is short; before it (less 30 s) always short, from then on always free; the loop never falls through |
| Accounts.AccountState.ResumeTime | scripts/burn_sensenova.py:268-327 | from the returned time on the account can pay at every moment (nothing in flight, need within both caps); at every moment earlier than it less 60 s it cannot, in all anchored and rolling combinations |
| Accounts.AccountState.BudgetAllow | scripts/burn_sensenova.py:798-825 | allowed exactly when not parked, below the absolute cap and affordable: the debits of the account's own five hours, and of its own week or else the global one, leave room for the cost on top of what is in flight; otherwise only the parking changes, to a sound and tight time or for ever |
| Accounts.CanPayExactly | scripts/burn_sensenova.py:225-266 | an account can pay if and only if it is not parked, below the absolute cap and affordable in the sense of the row above; its own week anchor, if it has one, decides alone |
| Accounts.ParkingIsRight | scripts/burn_sensenova.py:268-327 | in the same terms: from the parking time on the cost is affordable, and up to a minute before it is not |
| Accounts.AccountState.Reserve | scripts/burn_sensenova.py:1564-1567 | the whole new state after a reservation |
| Accounts.AccountState.Complete | scripts/burn_sensenova.py:1095-1117 | the whole new state after a settled request: real cost booked, old debits popped, reservation dropped |
| Penalties.SuccessStartsAfresh | scripts/burn_sensenova.py:1095-1117 | a success clears the streaks of key and account and what was lent, and leaves every parking and the target alone |
| Accounts.AccountState.Fail | scripts/burn_sensenova.py:1127-1219 | the whole new state for every status, body and exception: quota (402, 403, 429) before rate limit (429 or a frequency body) before rejection (401, 403) before cooldown; reservation dropped |
| Penalties.ExhaustedAccountRests | scripts/burn_sensenova.py:1133-1155 | an exhausted quota (402, 403 or 429) closes the account for the quota time and leaves the key as it was; one request less is out |
| Penalties.RejectedKeyIsGone | scripts/burn_sensenova.py:1206-1213 | a 401 or 403 takes the key out for good and nothing else |
| Penalties.FailedKeyRestsBriefly | scripts/burn_sensenova.py:1215-1220 | any other status rests the key for exactly 20 seconds, an exception for exactly 15; the account goes on |
| Accounts.AccountState.OnRateLimit | scripts/burn_sensenova.py:1157-1204 | the whole new state after a 429: halved target with floor 1, key cooldown, streak, account parking |
| Penalties.RateLimitedKeyRests | scripts/burn_sensenova.py:1157-1204 | the key is usable again from exactly now plus its rest on - the base, doubled for each 429 in a row up to the maximum while the account can still give way -; the target is halved down to 1, and enough in a row close the account |
| Accounts.AccountState.Rebalance | scripts/burn_sensenova.py:1339-1392 | the whole new state after a rebalance: additive increase and starvation relief, both capped |
| Penalties.RebalanceGrows | scripts/burn_sensenova.py:1339-1392 | an account that is not parked may have one more request out after a quiet minute and one more when it starves, up to its maximum; nothing else changes, and a parked account is left alone |
| Penalties.LendingIsBounded | scripts/burn_sensenova.py:1376-1392 | over any number of rebalances without a quiet minute, at most two more requests are lent |
| Penalties.QuietAccountRecovers | scripts/burn_sensenova.py:1369-1375 | over quiet rebalances the target rises by at least one each until it stands at the maximum |
| Accounts.TrimmingIsInvisible | scripts/burn_sensenova.py:1115-1116 | the trimmed ledger gives the same available credits as the untrimmed one, now and ever after, in every window mode |
| Accounts.LoadFilterIsInvisible | scripts/burn_sensenova.py:916-921 | the same for the filter applied when a saved ledger is loaded |
| BurnerRun.Burner.PickKey | scripts/burn_sensenova.py:1011-1032 | the choice is the least loaded eligible account and its least loaded usable key, first ones on ties; none only when nothing is eligible |
| Penalties.FreeIsEligible | scripts/burn_sensenova.py:1014-1028 | an account that nothing has parked, with room for one more request and a fit unused key, takes part in the choice |
| BurnerRun.PickInAccount | scripts/burn_sensenova.py:1025-1029 | the least loaded usable key of one account, the first of them; none only when no key is usable |
| BurnerRun.Burner.WorkerTurn | scripts/burn_sensenova.py:1539-1567 | one atomic turn: choice, pause, check and reservation; sends exactly when work is not paused and the chosen account can pay; an account that cannot is parked until a sound and tight time, or for ever |
| BurnerRun.RunIsSane | scripts/burn_sensenova.py:1539-1579 | in every run: account in-flight is the sum over its keys, reserved cost is in-flight times estimate, in-flight within the per-account maximum, target at least 1, ledger and trimmed debits consistent |
| BurnerRun.BudgetSafety | scripts/burn_sensenova.py:798-825 | in every reachable state of every interleaving, window burn plus reservations stays within both caps, and no rolling stretch and no anchored cell of the whole history exceeds its cap, up to the total by which real costs exceeded estimates |
| BurnerRun.CapsHold | scripts/burn_sensenova.py:225-266 | the same told from the debits: in every run of a fresh account no five hours hold more than their cap, no week from the account's own anchor more than the week's cap whatever the global anchor, and without an own anchor none from the global one, up to the excess of real costs over estimates |
| BurnerRun.HonestRunsStayWithinCaps | scripts/burn_sensenova.py:798-825 | when no real cost exceeds its estimate, the same with no excess at all |
| BurnerRun.TotalOvershootIsBounded | scripts/burn_sensenova.py:804-812 | an account starting below the absolute cap never passes it by a full load of in-flight estimates |
| BurnerRun.CapReachedIsFinal | scripts/burn_sensenova.py:804-812 | once the absolute cap is reached, no run ever dispatches on that account again, whatever overwrites its parking |
| BurnerRun.TotalIsTheHistory | scripts/burn_sensenova.py:1117 | in every run the running total moves by exactly the debits of the whole history |
| BurnerRun.DoneIsPossible | scripts/burn_sensenova.py:1109-1117 | every real settlement is a step of the modelled run, so the theorems leave none out |
| BurnerRun.FreshAccountIsSafe | scripts/burn_sensenova.py:186-223 | a new account satisfies the hypotheses of the run theorems |
| ToolHistory.TranslateInput | app/models/request.py:337-498 | the loop over items with its buffers computes the translation that the next rows are about |
| ToolHistory.HistoryIsAccepted | app/models/request.py:357-498 | for every transcript: in each prefix only opened calls are answered, other messages appear only when none is open, and at the end opened and answered ids are the same multiset |
| ToolHistory.ToolMessagesAnswer | app/models/request.py:416-450 | without input messages of role "tool", every tool message carries the id it answers |
| ToolHistory.NoCallIsLost | app/models/request.py:365-415 | every function call reaches the upstream exactly once and in order, with id, name and arguments |
| ToolFields.CallsCarryTheirIds | app/models/request.py:404-415 | for every transcript: the k-th call sent carries name and arguments of the k-th call given, and its call id, or without one its item id, or without both a new id |
| ToolHistory.RoundsAreFaithful | app/models/request.py:400-498 | on well-shaped rounds with bare images anywhere: each round is one call message, immediately followed by exactly its real answers in order, then its images; nothing is fabricated |
| ToolFields.RoundIsAnswered | app/models/request.py:404-450 | calls with call ids and outputs with exactly those call ids, whatever item ids the calls carry, become one message with those ids and then exactly those outputs in order, each with its own content |
| ToolFields.ContentIsHeld | app/models/request.py:420-436 | what a content becomes: its text, if any, and all its images in order, or its flattened text |
| ToolFields.InterruptedRoundIsClosed | app/models/request.py:365-450 | a round with distinct call ids of which some outputs, in any order, came: one message with all calls, those outputs as they came, then in call order the note for each call without one |
| ToolFields.LoneCallsAreClosed | app/models/request.py:372-381 | calls without outputs are each closed, in order, by the note that no output was recorded |
| ToolFields.MessagesAreRead | app/models/request.py:451-494 | outside of rounds each message and each bare image is one message in order, under the role it names (developer as system, unknown as user) and with its content, or the notice that the image cannot be shown |
| ToolFields.ImagesAreSilent | app/models/request.py:459-471 | without forwarding, bare images anywhere in a transcript change nothing |
| ToolRounds.AdjacencyIsExact | app/models/request.py:365-498 | for every transcript: each message with calls is immediately followed by exactly its answers if and only if calls are never sent while earlier ones are open |
| ToolRounds.InterleavedRoundIsSplit | app/models/request.py:404-450 | a transcript whose round is torn apart |
| ToolRounds.AnswersAreExact | app/models/request.py:372-450 | for every transcript: the answers sent are, in order, exactly the outputs whose call was waiting, each once with its content, and one placeholder per call that got none |
| ToolRounds.SaidIsExact | app/models/request.py:392-498 | for every transcript: the ordinary messages sent are what its messages and bare images say, each once, in the order of a track that names every item that says something exactly once |
| ToolRounds.OrderIsExact | app/models/request.py:400-498 | for every transcript: that order is the transcript's own if and only if no message is read while an image or remark is held back and no image is held back while a remark is |
| ToolRounds.KeptOrderSaysAll | app/models/request.py:400-498 | then the ordinary messages are what the items say, one after the other |
| ToolRounds.ImageIsOvertaken | app/models/request.py:451-498 | a transcript whose image comes after the message that follows it |
| MessagesStream.StreamReply | app/api/messages.py:119-276 | the assembler, fed any chunks, emits the reply the next row is about |
| MessagesStream.ReplyIsFaithful | app/api/messages.py:119-276 | for every chunk stream: block indices 0..n-1 in opening order, each started and stopped once, deltas between, message_delta then message_stop last; a client reads exactly the text, thinking and per-key tool calls that the chunks spell, in at most one text and one thinking block |
| ChunkFields.SpeechIsRead | app/models/response.py:180-189 | for every chunk stream: the thinking read is, chunk by chunk, `reasoning_content` unless it is blank, else `reasoning` unless that is blank, and none with stripping on; the text read is the content, less what was recovered from reasoning when stripping is on |
| ChunkFields.ToolsAreRead | app/api/messages.py:181-190 | for every chunk stream: one tool per key in order of first appearance, with the id and name of its first fragment (a new id if it has none) and the arguments of all; a fragment without an index is one more call |
| ChunkFields.EndIsRead | app/api/messages.py:192-225 | the message ends with the stop reason of the last finish reason and the last usage reported, or zero |
| AnthropicStream.Stream | app/providers/anthropic.py:404-503 | the adapter's loop over upstream events yields the chunks the next rows are about |
| AnthropicStream.SequentialMirrors | app/providers/anthropic.py:404-503 | after any sequential upstream prefix the yielded chunks spell the same text, thinking less blank fragments, and tool calls; tokens and finish reason agree |
| AdapterFields.EveryEventIsConveyed | app/providers/anthropic.py:404-503 | for every upstream stream, sequential or not: up to message_stop each event that says something yields one chunk with its text, thinking, call or arguments and nothing else, calls numbered in order; the last chunk has both token counts, their sum and the finish reason |
| AdapterFields.NumbersReadBack | app/providers/anthropic.py:439-453 | the number in the id given to a call without one can be read back, so two such calls never share an id |
| AnthropicStream.ReemissionIsFaithful | app/api/messages.py:119-276 | upstream stream -> chunks -> reply: text, thinking less blank fragments, ordered tool calls with id, name and arguments, token counts and stop reason all survive |
| AnthropicStream.StopReasonsSurvive | app/api/messages.py:48-54 | end_turn, max_tokens and tool_use survive both mappings; stop_sequence becomes end_turn |
| AnthropicStream.DoneIsFinal | app/providers/anthropic.py:494-503 | nothing after message_stop changes what was received |
| ResponsesStream.StreamReply | app/api/responses.py:393-418 | the event loop with its assembler, fed anything the service reports - chunks, usage, routing metadata, a failure, the end - emits the reply the next rows are about |
| ResponsesStream.ReplyIsFaithful | app/api/responses.py:120-300 | for every stream of reports: the reply follows the grammar of the next two rows, numbered 1, 2, 3, ... without gaps; it completes with the spelled text, if any, then the spelled calls, the text as a whole, and the last usage and routing metadata; a failure ends it with its two events instead |
| ChunkFields.ResponseHolds | app/api/responses.py:149-282 | for every stream that does not fail: the completed response holds the text of the chunks first, if there is any, and then the tools of the fragments, in the terms of the chunk fields |
| ChunkFields.FailureIsRead | app/api/responses.py:284-300 | the two events of a failure carry its code and message as reported, or server_error and upstream error |
| ResponsesStream.ItemEventsAreOrdered | app/api/responses.py:89-98 | in every stream of that grammar the events of an item come in the order announced, part announced, deltas, whole text or arguments, part done, item done, and only deltas repeat |
| ResponsesStream.CompletedResponseIsWhole | app/api/responses.py:222-282 | in every stream of that grammar nothing follows the completion, and by then each item has been announced, told as a whole and finished |
| ResponsesStream.OutputOrder | app/api/responses.py:222-282 | for every stream that does not fail: the output of the completed event is in output-index order if and only if no tool fragment comes in an earlier chunk than the first text |
| ResponsesStream.CallThenText | app/api/responses.py:222-282 | a two-chunk stream whose completed output is out of order |
| ResponsesStream.ReplayIsFaithful | app/models/request.py:400-498 | sending the output of the completed event back as input restores the same assistant text and the same ordered calls |
| AnthropicHistory.TranslateMessage | app/models/anthropic.py:151-219 | the loops over blocks and pending texts compute the messages of a turn |
| TurnFields.JoinedTextsSpell | app/models/anthropic.py:34-41 | for any list of texts: the joined text splits into exactly those that are not empty, in order, with one newline between neighbours |
| TurnFields.AssistantTurnIsKept | app/models/anthropic.py:162-189 | an assistant turn is one message with all its texts and all its calls: name, input, and its id or a new one |
| TurnFields.UserTurnIsKept | app/models/anthropic.py:191-216 | for every arrangement of a user turn: between the same results, in the same order, the same texts, each section in one message; every result keeps its id and all its texts |
| TurnFields.SystemTurnIsKept | app/models/anthropic.py:218-219 | a system turn becomes one user message with all its texts |
| AnthropicHistory.ConvertMessages | app/providers/anthropic.py:138-192 | turns and system pieces of any message list; refused exactly when all messages are system messages |
| TurnFields.NothingIsEmpty | app/providers/anthropic.py:151-187 | no turn, text or result id of the converted messages is empty |
| TurnFields.BlanksAreFilled | app/providers/anthropic.py:155-187 | what an empty message, a result without a call id and a call without arguments become |
| TurnFields.SystemIsGathered | app/providers/anthropic.py:145-149 | the system pieces are the texts of the system messages that are not empty, in order |
| AnthropicHistory.ConversionSaysTheSame | app/providers/anthropic.py:138-192 | for any messages, the converted turns say every text, call and answer once and in order, merged answers included |
| AnthropicHistory.HistoryRoundTrip | app/models/anthropic.py:151-219 | Anthropic -> chat -> Anthropic: for every history in normal form the flattened sequence of texts, calls and answers is unchanged |
| AnthropicHistory.ExchangesRoundTrip | app/providers/anthropic.py:138-192 | the same history cut at its assistant turns: the same assistant turns, each followed by the same replies |
| AnthropicHistory.AnswersRoundTrip | app/providers/anthropic.py:138-192 | every call of every assistant turn is answered in the user turns before the next assistant turn, after the round trip if and only if before it |
| AnthropicHistory.ToolsSurvive | app/models/anthropic.py:151-219 | for histories of any text arrangement, thinking and empty texts included, all calls and answers survive in order |
| AnthropicHistory.AnswersShareATurn | app/providers/anthropic.py:152-163 | no turn of answers directly follows another one: consecutive answers end up in one turn |
| AnthropicHistory.SystemPromptRoundTrip | app/models/anthropic.py:92-96 | the system prompt, and nothing else, comes back as the system prompt |
| SseLines.StreamLines | app/providers/base.py:602-652 | the line loop yields the pairs the next rows are about |
| SseLines.ReadingIsExact | app/providers/base.py:602-652 | printed frames are read back one pair each and in order, with comments anywhere and multi-line payloads joined by newlines, if and only if no payload has a complete proper part and every omitted separator follows a complete payload and precedes a frame with its own event name (or follows one without) |
| SseLines.HalfPayloadRunsOn | app/providers/base.py:602-652 | two frames that are read as one |
| SseLines.EventNameIsInherited | app/providers/base.py:602-652 | two frames of which the second is read under the first one's event name, whatever counts as JSON |
| SseLines.CommentsAreInvisible | app/providers/base.py:618-619 | comment lines change nothing, in any state and at any place |
| SseLines.ReturnsAreInvisible | app/providers/base.py:610-611 | carriage returns at line ends change nothing, from any state |
| SseLines.LinesAreReadAlone | app/providers/base.py:636-637 | lines that are no fields - newline-delimited JSON - are read one by one, without an event name and stripped |
| SseLines.StripTrims | app/providers/base.py:620-637 | stripping takes exactly the white space off both ends |
| SseLines.PrintedEventsAreReadBack | app/api/messages.py:115-116 | what the gateway prints its reader reads back, whatever counts as JSON |
| KeyHealth.Credential.ReportSuccess | app/credentials/health.py:83-98 | the whole new key state after a success |
| KeyHealth.Credential.ReportFailure | app/credentials/health.py:116-257 | the whole new key state after each class of failure |
| KeyHealth.Credential.Pick | app/credentials/pool.py:345-359 | refresh, then hand out exactly when usable |
| KeyRest.ThrottledKeyRests | app/credentials/health.py:182-226 | in every run: after a 429 at t with duration d, as long as the key is only selected, looked at or parked with siblings, a selection hands it out if and only if it comes at t + d or later |
| KeyRest.RejectedKeyRests | app/credentials/health.py:160-180 | in every run: the same after a 401 or 403, until `auto_recover_after` has passed |
| KeyRest.FewFailuresAreForgiven | app/credentials/health.py:228-257 | in every run: transient failures, mixed with faults of clients and of the gateway, leave the key in use until as many as it allows have come since its last success, enabling or served rest |
| KeyRest.LastFailureParks | app/credentials/health.py:228-250 | in every run: the last one allowed rests it, for the duration it carries or else the policy's |
| KeyRest.SuccessEndsTheRest | app/credentials/health.py:83-98 | in every run: after a success or an enabling the key is handed out at once |
| KeyRest.ParkedKeyRests | app/credentials/health.py:352-397 | in every run: a key just handed out and then parked with its siblings rests until the time given |
| KeyRest.DisabledKeyStays | app/credentials/health.py:262-275 | in every run: a disabled key is never handed out before an operator enables it or an outcome is reported |
| KeyRest.BurstClimbs | app/credentials/health.py:184-194 | in a burst of n 429s, each within the decay time of the one before, the n-th stands on rung n; a burst begins anew after the decay time |
| KeyRest.LoadIsOutstanding | app/credentials/pool.py:351-359 | in every run the load of a key is what was handed out and has not been reported |
| KeyHealth.LadderIsBoundedByLoad | app/credentials/health.py:182-197 | in every run that revives no unhealthy key above the bottom rung, 401s included, rung plus in-flight never exceeds the most requests the key ever had outstanding, and a healthy key stands at the bottom |
| KeyHealth.BoundIsExact | app/credentials/health.py:358-373 | for every run: mere hand-outs can take it past that bound if and only if one of its steps revived the key above the bottom |
| KeyHealth.SequentialUseStaysLow | app/credentials/health.py:182-197 | used one request at a time, a key never climbs past the first rung, whatever errors it meets |
| KeyHealth.FatalErrorKeepsTheRung | app/credentials/health.py:358-373 | a run of six steps with a 401 whose rung plus in-flight (3) passes its peak (2) |
| KeyHealth.HealthyAboveBottom | app/credentials/health.py:352-397 | exactly which step leaves a key healthy above the bottom rung |
| Affinity.AffinityMap.Note | app/credentials/pool.py:269-283 | the note joins the history; the map stays within the size limit and keeps every live pin of the most recently noted sessions |
| Affinity.AffinityMap.Lookup | app/credentials/pool.py:311-319 | after any interleaving of notes and lookups the answer is what the history of notes says: the session's last note, if unexpired and if at most `max_sessions` sessions have been noted since; lazy expiry does not disturb it |
| Affinity.BoundIsLive | app/credentials/pool.py:269-283 | the place of a session in the ordered memory counts exactly the sessions noted since its last note |
| Affinity.LookupAgrees | app/credentials/pool.py:269-319 | a live pin is in the map exactly when it is its session's pin in the history and among the most recent `max_sessions` |
| Affinity.PinHolds | app/credentials/pool.py:269-319 | whatever was noted before and after a session's last note: its key is the pin exactly until it expires or as many other sessions as the map has places have been noted since |
| Affinity.RecencyHoldsLastNotes | app/credentials/pool.py:280-281 | after any notes the history holds exactly each session's last note |
| Affinity.EvictKeeps | app/credentials/pool.py:282-283 | evicting the oldest pin drops only a session beyond the limit |
| Rotation.StrategySorts | app/credentials/rotation.py:48-57 | the priority, least_failures and fastest strategies try every key once, in the lexicographic order of their criteria |
| RotationFields.StrategiesOrder | app/credentials/rotation.py:31-57 | the same told from the fields of any two keys: which criteria are compared, in which order and in which direction, under each of the three strategies |
| Rotation.OrderIsUnique | app/credentials/rotation.py:104-136 | with distinct ids that order is the only one, so it does not depend on how the keys were listed |
| Rotation.RoundRobin.Order | app/credentials/rotation.py:69-81 | order and new cursors of one call, as the next rows describe them |
| Rotation.ArrangedIsBandedPermutation | app/credentials/rotation.py:69-81 | every key once, higher priorities first |
| Rotation.ArrangedBand | app/credentials/rotation.py:76-79 | each band stands sorted by id and rotated by its own cursor |
| Rotation.AdvancedCursor | app/credentials/rotation.py:78-80 | each present band's cursor moves by one modulo its size; others stay |
| Rotation.EachKeyLeadsOnce | app/credentials/rotation.py:60-81 | in n consecutive calls on a band of n keys that stays unchanged, whatever the other bands do, each of its keys leads in exactly one |
| RotationFields.CallsGoRound | app/credentials/rotation.py:60-81 | on such a band the t-th call takes the keys by id from the t-th on, round the band |
| Rotation.LeaderStandsFirst | app/credentials/rotation.py:77-79 | leading means standing first of one's band in the order of that call |
| Rotation.WeightedOrder | app/credentials/rotation.py:89-101 | for every outcome of the draws: the keys in the order in which they were drawn, a permutation, higher priorities first |
| Rotation.AnyOrderCanBeDrawn | app/credentials/rotation.py:94-100 | and every order of a band comes from some draws |
| Pool.SelectableIsExact | app/credentials/pool.py:220-228 | after the lazy refresh exactly the keys that are not excluded and can serve are kept, each once |
| Pool.CredentialPool.Scan | app/credentials/pool.py:220-228 | every key that is not excluded is refreshed, the others are not touched, and the usable ones are returned |
| Pool.MoveToFront | app/credentials/pool.py:320-324 | the loop finds the first key with the pinned id and moves it, as the next row describes |
| Pool.PinLeads | app/credentials/pool.py:320-324 | a listed pin leads and the other keys keep their relative order; an unlisted one leaves the order untouched |
| Pool.AnyOrderIsExact | app/credentials/pool.py:204-239 | for every strategy, since each returns a permutation: with or without a pin, exactly the keys that may serve are offered, each once |
| Pool.CredentialPool.Candidates | app/credentials/pool.py:204-239 | the refreshed health of every key, the candidates in rotation order with the session's pin first - the pin that the history of notes gives - and the new cursors |
| Pool.SessionsAreSticky | app/credentials/pool.py:298-324 | a session whose last note is live and names a key that may serve gets that key first, the others in their usual order; any other session gets the usual order |
| Pool.CandidatesAreExact | app/credentials/pool.py:204-239 | those candidates are exactly the keys that may serve, each once, whoever is pinned |
| PoolFields.CandidatesMayServe | app/credentials/pool.py:204-239 | the same told from the health fields: exactly the keys that are not excluded and are healthy, have served their rest, or are cooling when the caller takes those too |
| PoolFields.ScanHealsTheServed | app/credentials/health.py:352-397 | a scan changes exactly the keys whose rest is served: healthy, without failures, and off the ladder after a cooldown only |
| Pool.CredentialPool.Pick | app/credentials/pool.py:345-359 | hands out the first candidate, and none only if no key can serve; one more request in flight on that key alone |
| Pool.PickIsAStep | app/credentials/pool.py:345-359 | for each key a pick is one step of the health runs above |
| ConfigWatch.ConfigWatcher.PollOnce | app/core/config_watch.py:147-212 | new state, handler argument and reported paths of one poll, whether or not the handler raises |
| ConfigWatch.FiresExactlyWhenSettled | app/core/config_watch.py:147-188 | over every run of polls and reseeds: the handler runs exactly for a signature seen by all polls of a span at least `settle` long that brings a new or changed file, with exactly those files: the paths that are new or whose entry differs from the adopted one |
| ConfigWatch.FiresOnce | app/core/config_watch.py:180-188 | a signature fires at most once until a different one is observed, even if the handler failed |
| ConfigWatch.EditFiresOnTime | app/core/config_watch.py:171-188 | an edit that stays put fires at the first poll at or after `settle`, and not before |
| ConfigWatch.DeletionsNeverFire | app/core/config_watch.py:180-188 | a signature that only lacks files never fires |
| ConfigWatch.VanishedFilesAreAdoptedAtOnce | app/core/config_watch.py:166-187 | over every run: a signature is adopted without having settled if and only if all files are gone and nothing was pending; nothing fires then |
| ConfigWatch.OneFileVanishes | app/core/config_watch.py:166-187 | a run of one poll that adopts without waiting |
| ConfigWriter.DeleteListEntry | app/core/config_writer.py:216-248 | the search, walk and trim loops compute the splice the next rows are about |
| ConfigWriter.DeleteRemovesTheEntry | app/core/config_writer.py:216-331 | the removed range is that of the first matching item of the section: the blank and comment lines right above it, its line and its body, up to the next sibling, top-level key or end; nothing is removed only when there is no match |
| ConfigWriter.WhatIsDeleted | app/core/config_writer.py:216-331 | the same without the helper functions: what the lines at both ends of the cut, above its item and below it are, and that nothing is removed if and only if no line of the section names the entry |
| ConfigWriter.EntriesAreDisjoint | app/core/config_writer.py:289-331 | entries of one list are disjoint, in order, and an entry ends where its neighbour's header starts |
| ConfigWriter.DeletesCommute | app/core/config_writer.py:216-248 | deleting two different entries of one list in either order gives the same file, both times removing |
| ConfigWriter.SecondDelete | app/core/config_writer.py:216-248 | a second delete of the same name does something exactly when the section holds that name again |
| ConfigWriter.OtherEntriesStay | app/core/config_writer.py:216-331 | every other entry of the section's own list keeps its lines, its deeper comments included, if and only if the first match stands at that list's indentation and, unless it is the first entry, no comment right above it is deeper |
| ConfigWriter.TheWantedEntryGoes | app/core/config_writer.py:216-331 | under that condition the cut is the wanted entry, from the first line that belongs to it to its last line of content |
| ConfigWriter.OwnersAbut | app/core/config_writer.py:216-233 | the entries share out the lines of the list: each starts where the one before it ends |
| ConfigWriter.CommentOfTheNeighbourGoes | app/core/config_writer.py:289-298 | a file where a comment of the entry above goes too |
| ConfigWriter.UntouchedStays | app/core/config_writer.py:246 | an entry the cut does not touch stands whole in the result |
| ConfigWriter.BelowItsItem | app/core/config_writer.py:301-317 | below its item the cut takes only deeper lines, blanks and comments if and only if the first line at or left of the item's column is a sibling or a top-level key |
| ConfigWriter.NestedMatchTakesTheNextEntry | app/core/config_writer.py:258-281 | a file where deleting a nested item takes the next entry with it |
| ConfigWriter.NestedMatchTakesALine | app/core/config_writer.py:258-281 | a file where it takes a line out of the entry around it |
| ConfigWriter.NestedMatchLeavesTheWantedEntry | app/core/config_writer.py:258-281 | a file where, moreover, the wanted entry survives |
| ConfigWriter.ColumnZeroIsNeverDeleted | app/core/config_writer.py:284-286 | only indented dash lines are ever taken as entries |

## Left out

- Floats: credits, times and targets are reals, so rounding and drift of running sums are not modelled.
- Burner: what sets the global pause (a worker only honours it), automatic calibration, hot reload of rates and caps, the `--once` mode, all-keys-dead exit and the state file's other fields.
- Accounts.AccountState.ResumeTime: requires a time at least one week into the epoch, because before that a week start can be 0.0; and it is given the week start the caller computed.
- BurnerRun.BudgetSafety: a real cost is assumed non-negative; it may exceed the estimate, and the bound then carries the excess.
- BurnerRun.Burner.WorkerTurn: one clock reading serves the choice, the pause and the check.
- Parsing of anchors, dates and week specifications; the anchors are arbitrary numbers.
- ToolHistory: flattening of content parts and image normalisation are abstract (`Raw`); fresh call ids are distinct inputs.
- ToolHistory.ToolMessagesAnswer: input messages of role "tool" are passed through as the code does and carry no call id.
- MessagesStream: message ids, model names and error events.
- ResponsesStream.StreamReply: item ids, response ids, model names, creation times and the closing `[DONE]` line are not part of the modelled events; a failure is read as its two events, code and message.
- AnthropicStream: an upstream error event or malformed JSON ends the stream with an exception; only the events of a running stream are modelled.
- AnthropicStream.ReemissionIsFaithful: reasoning stripping is off, and the upstream stream is sequential, one block open at a time.
- AnthropicHistory: images, tool definitions and tool choice; JSON dump and parse are inverse functions on opaque objects.
- AnthropicHistory.HistoryRoundTrip: for normal form only; other text arrangements are joined by newlines, and `ToolsSurvive` and `TurnFields` say what survives then.
- SseLines: splitting the response body into lines belongs to the HTTP client; what parses as JSON is an arbitrary predicate.
- KeyHealth: cooldown durations, jitter, throttle kinds, latency averages, audit reasons and health checks; a duration is an arbitrary number.
- Rotation: the library sort behind the sorted strategies is a stable insertion sort here; ids are numbers.
- Pool: the rate limiter is absent; the keys of one provider are registered once and for all; timestamps of use are not modelled.
- Rotation.WeightedOrder: the weights decide only how likely an order is, which is not modelled.
- Affinity: the affinity switch and the log lines; key ids are numbers; the time to live is constant, as a change of it would break expiry order.
- ConfigWatch: the watcher's task, status fields and the order in which changed paths are listed.
- ConfigWriter: which entry a comment belongs to is a definition (deeper than the list's column: the entry above); lines are records of indentation, kind and `key: name`; quoting, tabs and the regular expression are not modelled, nor is the file write.
- Keyless providers, key registration and reconciliation, persistence, HTTP, scheduling, routing, pricing and the user interface.
