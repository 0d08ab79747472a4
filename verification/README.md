# verdent2api: a verified model

verdent2api is a gateway that offers an OpenAI-compatible chat endpoint on top of an upstream
that streams Anthropic-style events. This project models its core in Dafny and proves what
that core is for:

- **Stream decoding and translation.** Bytes become frames (`Sse`, `Decoder`), frames become
  semantic events (`Events`), and two separately written loops turn the events into streamed
  chunks or into one aggregated object (`Translate`). `Meaning` says what an event stream
  means, `Client` is an OpenAI client written from the field names of the API, `Upstream` is
  the sending side of the protocol; `Agreement`, `StreamTheorems`, `Invisible` and `EndToEnd`
  connect them, `Heads` is what a client reads around the message, and `Delivery` goes from
  what was sent to what is read.
- **The account pool.** The class `Pool.AccountPool` updates its maps in place; `PoolModel`
  gives the effect of each operation on values, `PoolHistory` proves what every run leaves
  behind, restarts from the state file included. `Selection` is the weighted choice, `Sticky`
  the session cache, `Interleaving` the locks and steps of concurrent selections, `StickyRuns`
  what the cache promises under them.
- **The request handler.** `Failover` is the loop over accounts with everything it does not
  decide as an input (clock readings, random draws, call outcomes, other requests meddling
  with pool and account store); `Server` is the handler itself, driving the pool, the store
  and the translator; `Requests` is about whole requests against the pool, `Replies` about what
  the client is told.
- **Normalisation and identity.** `Normalise` is the message rewriting before encryption,
  `Rendering` what becomes of each message, `Store` the account list, `Credentials` what it
  promises field by field, `Reloader` the loop that keeps pool and store in step.

How the pieces are stated: loops and in-place updates are methods with invariants, proved
against functions; the properties are lemmas about those functions. JSON text is library code,
so a `Codec` (parser and printer) is a parameter, and only the statements that go through
bytes and back ask for `Codec.Sound`: the parser reads back what the printer prints, and what
is printed is not empty and has no raw line end. `SampleCodec` builds a printer and a parser
that meet it, so the assumption is not empty. Generated call ids come from a numbered source
that both translators share. Text is a sequence of Unicode characters.

## What turned out to need a condition

- Tool calls of the two forms agree exactly when every index was started and no index was
  first mentioned silently out of turn (`ToolCallsAgree`, for distinct call ids; without
  distinctness `ToolCallsAgreeIf` and `ToolCallsAgreeOnlyIf` give both directions).
  `OrphanDisagrees` is the counterexample to the unconditional claim; text, reasoning, finish
  reason and usage agree unconditionally.
- The usage guide (docs/使用文档.md) says a request moves on to the next healthy account, up to
  three. The code does so after every failure that takes its account out of service, but not
  after a mild one (the account has a token, the refusal is no authorisation, credit or rate
  failure, and the account stays below the error threshold). `GivesUpOnlyWhenExhausted`: an
  undisturbed request gives up only after three accounts, when none is healthy, or when it is
  led back to an account that failed mildly. `MildFailureStops`: a sticky request is led back
  if and only if its first attempt fails mildly, or fails otherwise and its second fails
  mildly. `StickyRequestFails` is such a request.
- The usage guide says a conversation sticks to one account. Selections are not atomic, and one
  that has missed the cache overwrites the entry whatever it says by then, so overlapping first
  requests can move a key between healthy accounts (`RaceMovesKey`, `RivalMovesKey`). It sticks
  while no selection of the key is past the cache with anything else, the entry does not expire
  and the account is healthy whenever it is checked (`StickyRuns.Affinity`, and
  by the time between calls `CallsKeepAccount`; for whole requests `ConversationReturns`).
- The original README.md says an account is disabled on a 401 whose token cannot be refreshed.
  The code tries no refresh then: an account is disabled if and only if it has no token or
  upstream answers 401 or 403 (`DisablesIff`, `UnauthorisedNotRefreshed`).
- The reload loop reads the ids twice, for the comparison and for the refresh. The pool keeps in
  step if nothing comes in between (`QuietInStep`); otherwise it can stay out of step
  (`TickRace`), and `InStepAfterTick` says exactly when it does.
- A frame with an unknown wire type is invisible unless its type is literally `tool_start` or
  `tool_args` (`UnknownTypeInvisible`).
- A later failure can shorten a cooldown: never, if and only if the three cooldown settings are
  equal (`CooldownCanShrink`); the built-in ones are not (`BuiltInShrinks`).
- Successes are not saved, so a restart forgets the successes since the file was last written,
  exactly those and nothing else (`FileLags`, `CrashRecovery`).
- Refreshing a token keeps the account's id exactly if it has a user id or the fingerprint is
  unchanged (`RefreshKeepsId`).
- The reload signature is exact for ids without NUL (`SignatureExact`) and ambiguous with one
  (`SignatureAmbiguous`).
- The frame format is that of section 9.2.6 of the WHATWG HTML Living Standard, but the code
  joins data lines without a line feed, delivers a frame left pending at the end of the input,
  and only takes a line feed as a line end; the model follows the code.

## Model

| member | source | states |
|---|---|---|
| Sse.FramesAreBlocks | internal/verdent/stream.go:53-87 | the one-pass line loop delivers exactly one frame per block between blank lines that has a non-empty event name or data; the name is the last event line's, the data all data lines joined |
| Sse.FramesConcat | internal/verdent/stream.go:53-87 | decoding is compositional after any terminated blank line |
| Sse.FramesCrLf | internal/verdent/stream.go:57-60 | a carriage return before every line feed changes no frame |
| Sse.FramesIgnoreLines | internal/verdent/stream.go:67-78 | complete comment or unknown-field lines can be inserted between any two lines |
| Sse.PrintThenRead | internal/verdent/translate.go:261-265 | any list of payloads written as data frames is read back exactly, in order, whatever follows |
| Sse.FramesOfFields | internal/verdent/stream.go:53-87 | however a frame is written, with a space after the colons or without, its data on one line or many, several event names, comments anywhere, closed by a blank line or the end of the input, it reads back as its last name and all its data |
| Decoder.SSEDecoder.ReadString | internal/verdent/stream.go:57-59 | the buffered reader: one line with its line feed, or the rest and the sticky terminal condition |
| Decoder.SSEDecoder.NextFrame | internal/verdent/stream.go:53-87 | returns the first frame of what is left and leaves the others, consuming at least one byte; an error means no frame is left |
| Decoder.SSEDecoder.Next | internal/verdent/stream.go:90-112 | returns the first event of what is left and leaves the others; terminates because bytes are consumed |
| Upstream.DecodesAsMeant | internal/verdent/stream.go:115-198 | every object that says what was meant in the fields the decoder reads is decoded to the event meant, whatever further fields it carries: the type in the object decides whatever the event line says, the event line if the object has none, and either name does where there are two |
| Upstream.SendThenDecode | internal/verdent/stream.go:90-198 | the bytes of any sequence of events, however each object and each frame is written, decode to the events meant, pings dropped, whatever follows |
| Upstream.Misfits | internal/verdent/stream.go:141-228 | a count that is no 64-bit integer counts as none, and a block delta of another type says nothing |
| Events.SilentFramesInvisible | internal/verdent/stream.go:99-110 | frames without data, without a JSON object, and heartbeats can be inserted at any frame boundary |
| Events.EventsWellFormed | internal/verdent/stream.go:122-134 | every decoded error event ends the stream and has a message, and only errors, `[DONE]` and message_stop end it |
| Invisible.EffectiveMeans | internal/verdent/translate.go:59-128 | everything either loop writes is determined by the effective events |
| Invisible.SameEffectSameOutput | internal/verdent/translate.go:43-245 | streams with the same effective events give the same bytes, object, usage and outcome |
| Invisible.UnknownTypeInvisible | internal/verdent/stream.go:197 | an unknown wire type has no effect if and only if it is not `tool_start` or `tool_args`; otherwise it makes a tool call |
| Invisible.NoiseInvisible | internal/verdent/translate.go:51-128 | inert frames inserted at a boundary change neither form's output |
| Invisible.AfterTerminalInvisible | internal/verdent/translate.go:125-127 | nothing after the first terminal event changes either form's output |
| Translate.Translator.StreamTool | internal/verdent/translate.go:78-116 | the streaming loop's tool cases keep the accumulated calls, order and generated ids, and write the chunk due |
| Translate.Translator.StreamOne | internal/verdent/translate.go:59-124 | one event keeps the streaming loop's variables equal to the meaning of what was seen, and writes exactly its chunks |
| Translate.Translator.StreamLoop | internal/verdent/translate.go:51-128 | the loop handles the events up to the first terminal one and reports how the stream ended |
| Translate.Translator.StreamTo | internal/verdent/translate.go:43-141 | writes exactly the payloads of the stream, then reasoning, finish chunk and end marker if it completed; returns the usage and the error |
| Translate.Translator.AggregateTool | internal/verdent/translate.go:171-187 | the aggregating loop's tool cases keep the accumulated calls, order and generated ids |
| Translate.Translator.AggregateOne | internal/verdent/translate.go:160-195 | one event keeps the aggregating loop's variables equal to the meaning of what was seen |
| Translate.Translator.AggregateLoop | internal/verdent/translate.go:152-199 | the loop handles the events up to the first terminal one and reports how the stream ended |
| Translate.Translator.BuildMessage | internal/verdent/translate.go:201-225 | builds the message object: null for no content, reasoning and calls only if there are any |
| Translate.Translator.Aggregate | internal/verdent/translate.go:144-245 | returns the completion object of a completed stream and none of a failed one, with the usage either way |
| Client.CompletionReads | internal/verdent/translate.go:201-242 | a client reads from the completion object exactly the content, reasoning, calls, finish reason and usage put in |
| Agreement.ReaderTracks | internal/verdent/translate.go:51-128 | after the chunks of any events a client has the text so far, the role once, and per index the accumulated call, its id missing only if the index was never started |
| Agreement.StreamReads | internal/verdent/translate.go:248-265 | the bytes of a completed stream are read as the chunks that were written |
| StreamTheorems.StreamAgreesWithAggregate | internal/verdent/translate.go:43-245 | content, reasoning, finish reason and usage agree on every completed stream, read from bytes |
| StreamTheorems.ToolCallsAgree | internal/verdent/translate.go:78-116 | with distinct ids, the tool calls agree if and only if every index was started and none was first mentioned silently out of turn |
| StreamTheorems.ToolCallsAgreeIf | internal/verdent/translate.go:78-116 | the condition suffices, without distinct ids |
| StreamTheorems.ToolCallsAgreeOnlyIf | internal/verdent/translate.go:98-116 | agreement forces every index to have been started and every call to be shown |
| StreamTheorems.WellBehavedAgrees | internal/verdent/translate.go:78-116 | if every argument event follows a start for its index, the tool calls agree |
| StreamTheorems.OrphanDisagrees | internal/verdent/translate.go:98-116 | an argument event without a start makes the two forms differ; an empty one is streamed as nothing but aggregated as a call |
| StreamTheorems.OneEndMarker | internal/server/handler.go:223-235 | a streamed response has exactly one end marker, and it is last, on success and on failure |
| StreamTheorems.ResponseReads | internal/verdent/translate.go:43-141 | one finish reason iff the stream completed, the error message iff it failed, the role iff some text was sent |
| StreamTheorems.RoleInResponse | internal/verdent/translate.go:66-75 | the role is on the first text chunk and on no other chunk |
| EndToEnd.FormsAgree | internal/server/handler.go:209-249 | what the handler writes to a streaming client and to any other client for the same upstream bytes is read as the same message |
| Delivery.CompletedDelivered | internal/server/handler.go:209-249 | for a stream that completes, what either client reads from its bytes is what the upstream sent up to the first event that ended the stream, texts, thoughts, tool calls, finish reason and token counts; the tool calls of the streaming client too if calls were started before their arguments |
| Delivery.FailedDelivered | internal/server/handler.go:223-245 | for a stream that fails, by an error event or the transport, the streaming client reads what was sent until then and the error |
| Delivery.BytesMean | internal/verdent/stream.go:90-198 | how a stream ends: a stop or the end marker completes it whatever follows, an error event fails it, otherwise the transport decides |
| Heads.ResponseHeads | internal/verdent/translate.go:248-274 | every payload read from the bytes of a streamed response is a chunk with the response's id, time and model, one choice and function entries, but for the one that reports an error |
| Heads.CompletionHead | internal/verdent/translate.go:201-242 | the completion object says its id, kind, time and model, the assistant's role, function entries, and null for no content |
| EndToEnd.FailureReported | internal/server/handler.go:227-244 | a failing stream is closed with its error for the streaming client and answered with 502 otherwise, and counts as a failure |
| Ordering.SortedUnique | internal/pool/pool.go:127-131 | the index does not depend on the order the map is walked in |
| Ordering.LessMeans | internal/pool/pool.go:131 | the order is that of the first difference, a prefix first |
| PoolModel.SaveThenLoad | internal/pool/pool.go:151-197 | loading the state file gives back exactly the states saved |
| PoolModel.LoadedLast | internal/pool/pool.go:151-170 | a later entry for the same account wins |
| PoolModel.SnapshotInOrder | internal/pool/pool.go:172-197 | the file lists the states in index order |
| PoolModel.BuiltInSettings | internal/pool/pool.go:40-54 | settings that are not positive fall back to five errors, ten minutes, one minute and one hour |
| PoolModel.TruncateErrMeans | internal/pool/pool.go:386-392 | an error is kept on one line and cut after 200 characters |
| PoolModel.RunConsistent | internal/pool/pool.go:113-132 | in every run the index is sorted, duplicate-free and equal to the set of accounts, and every state's id is its key |
| PoolHistory.TrailingFailuresMeans | internal/pool/pool.go:344-351 | the trailing failure run is the longest one |
| PoolHistory.StateDescribed | internal/pool/pool.go:334-384 | disabled iff an authorisation failure since the last revival; the cooldown is the deadline of the latest cooldown-setting failure since then; exact error run, counters, sums and latest failure |
| PoolHistory.RunIsHistory | internal/pool/pool.go:98-197 | every run, restarts included: pool and state file hold exactly the accounts and states that the histories determine |
| PoolHistory.EveryRecordDescribed | internal/pool/pool.go:334-384 | in every run every record is described by its history since it entered the pool |
| PoolHistory.InServiceIff | internal/pool/pool.go:212-287 | in every run, some draw makes a selection choose an account if and only if it is in the pool, its history has no authorisation failure since the last revival, and the deadline of the cooldown that counts has come |
| PoolHistory.FileLags | internal/pool/pool.go:344-367 | the state file knows each account's history except for at most some final successes |
| PoolHistory.CrashRecovery | internal/pool/pool.go:98-111 | after a restart disabled flag, reason, cooldown and last error are as in memory; request, success and token counts lack exactly those of the successes since the file was last written, and the whole record is restored if and only if there were none |
| PoolHistory.CountersFit | internal/pool/pool.go:341-351 | in every run successes are not negative and the error run fits into requests less successes |
| PoolHistory.WeightsAtLeastAFifth | internal/pool/pool.go:247-263 | in every reachable pool with a monotone clock every weight is at least 0.2, so the lower guard is dead |
| PoolHistory.CooldownCanShrink | internal/pool/pool.go:354-365 | with a clock that never goes back, no failure ever moves a cooldown to an earlier time if and only if the three cooldown settings are equal |
| PoolHistory.BuiltInShrinks | internal/pool/pool.go:358-361 | with the built-in settings a rate limit after exhausted credit shortens an hour to a minute |
| Selection.WeightedPick | internal/pool/pool.go:271-287 | the loop picks the index at which the running target is used up |
| Selection.PickExact | internal/pool/pool.go:271-287 | an index is picked iff the target lies in its own interval between prefix sums, of length its weight; the fallback is never needed |
| Selection.ChooseSound | internal/pool/pool.go:232-244 | the locked step fails iff no account is healthy, and returns a healthy one otherwise |
| Selection.ChooseExact | internal/pool/pool.go:246-264 | which draws choose which candidate |
| Selection.CanBeChosen | internal/pool/pool.go:246-264 | every healthy account is chosen by some draw |
| Selection.TotalPositive | internal/pool/pool.go:276-278 | with positive weights the uniform fallback is dead |
| Selection.WeightMonotone | internal/pool/pool.go:247-262 | longer idle and better success rate never lower the weight |
| Selection.WeightExact | internal/pool/pool.go:246-262 | the weight: one more for each hour of idling, scaled by the rate of success but by a fifth at least |
| Selection.CandidatesInOrder | internal/pool/pool.go:235-241 | the candidates are in index order |
| Sticky.LookupExact | internal/pool/pool.go:296-309 | a key is found exactly if it was used in the last 30 minutes, and being found is a use |
| Sticky.RememberExact | internal/pool/pool.go:311-322 | up to 2048 entries nothing is dropped, above exactly those not used in the last 30 minutes |
| Interleaving.SelectionJustified | internal/pool/pool.go:226-269 | under every interleaving, a returned account was in the pool and healthy at the locked step of this very call that checked that account or chose it, and a refusal saw no healthy account at the locked step of this call |
| Interleaving.NoDeadlock | internal/pool/pool.go:289-313 | as the sticky lock is only ever taken last, some unfinished selection can always go on |
| Interleaving.ExecInvariant | internal/pool/pool.go:226-322 | each lock has at most one holder and the index stays consistent |
| StickyRuns.DeletionInvisible | internal/pool/pool.go:296-322 | under every interleaving, lazy deletion and the sweep change neither which steps are possible nor which account any selection ends with |
| StickyRuns.Affinity | internal/pool/pool.go:226-231 | under every interleaving, a key held by an account, with no selection of it past the cache with anything else, stays held while its entry was used in the last 30 minutes and the account is healthy whenever it is checked, and every selection of the key that ends meanwhile ends with that account |
| StickyRuns.CallsKeepAccount | internal/pool/pool.go:296-322 | the same in terms of calls: if each lookup of the key comes at most 30 minutes after its last use, every selection of the key ends with the account, whatever is swept |
| StickyRuns.RememberHolds | internal/pool/pool.go:311-314 | a selection that remembers its account makes the key held if no other selection of it is past the cache |
| StickyRuns.RivalMovesKey | internal/pool/pool.go:232-268 | a selection that has missed the cache can move the key to any healthy account, whatever the entry says by then |
| StickyRuns.RaceMovesKey | internal/pool/pool.go:226-269 | from every world with two healthy accounts, two overlapping first selections of a key can end with different accounts, and a later one follows the second although the first stayed healthy |
| Pool.AccountPool.constructor | internal/pool/pool.go:98-111 | a new pool is a restart from the state file |
| Pool.AccountPool.LoadState | internal/pool/pool.go:151-170 | a later entry for the same id wins |
| Pool.AccountPool.Reindex | internal/pool/pool.go:113-132 | exactly the listed accounts remain, survivors unchanged, newcomers fresh, index sorted |
| Pool.AccountPool.SaveLocked | internal/pool/pool.go:172-197 | the file becomes the states in index order |
| Pool.AccountPool.Refresh | internal/pool/pool.go:135-140 | the refresh operation |
| Pool.AccountPool.Record | internal/pool/pool.go:334-368 | the record operation |
| Pool.AccountPool.Revive | internal/pool/pool.go:371-384 | the revive operation, reporting whether the account exists |
| Pool.AccountPool.IdHealthy | internal/pool/pool.go:289-294 | in the pool, enabled and out of cooldown |
| Pool.AccountPool.LookupSticky | internal/pool/pool.go:296-309 | a hit renews the entry, an expired entry is dropped |
| Pool.AccountPool.RememberSticky | internal/pool/pool.go:311-322 | remembers, and sweeps expired entries above the limit |
| Pool.AccountPool.Weigh | internal/pool/pool.go:246-263 | the weights of the candidates |
| Pool.AccountPool.ChooseLocked | internal/pool/pool.go:232-268 | the locked choice |
| Pool.AccountPool.Select | internal/pool/pool.go:226-269 | sticky first, otherwise the locked choice, remembered |
| Failover.ServeProper | internal/server/handler.go:118-180 | at most three distinct accounts; each recorded once, in order, save the last on the two early exits; an error is in hand when giving up |
| Failover.ServeCounts | internal/server/handler.go:118-170 | without interference the request counters grow by the number of accounts tried, less the unrecorded one |
| Requests.RequestIsLogged | internal/server/handler.go:118-170 | whatever others do meanwhile, the pool a request leaves is the pool it found with a list of operations applied, in which its own are exactly one record for each account it owes one to, in order |
| Requests.RequestKeepsHistory | internal/pool/pool.go:334-384 | a pool that is a run stays one when requests drive it, and every record stays described by its history |
| Requests.DisablesIff | internal/server/handler.go:136-162 | an attempt disables its account if and only if there is no token for it or upstream answers 401 or 403 |
| Requests.TryEnds | internal/server/handler.go:136-169 | how an attempt ends: asking for another account without a token or after a refused call, and for good without a body, without a flusher, or relayed |
| Requests.ClassifyMeans | internal/server/handler.go:283-303 | which answers mean refused credentials, no credit or too many requests, by status and words in the body, and what is recorded |
| Requests.DeadlineIff | internal/server/handler.go:283-303 | an attempt rests its account for the credit cooldown or the rate cooldown exactly on those answers, for the error cooldown exactly if another failure makes the error run reach the threshold, and leaves the deadline alone otherwise |
| Requests.ServedCounts | internal/server/handler.go:209-249 | a relayed stream counts as a success with its tokens or as a failure with its message |
| Requests.RefusedCounts | internal/server/handler.go:136-162 | a refused call or a missing token counts as one failure with what was said |
| Requests.LastErrorIsLatest | internal/server/handler.go:116-181 | a request gives up with the error of the account it tried last |
| Requests.UnauthorisedNotRefreshed | internal/server/handler.go:184-192 | an account with a usable token that is refused with 401 is disabled although a refresh would have succeeded, and its token stays |
| Failover.GivesUpOnlyWhenExhausted | internal/server/handler.go:118-180 | without interference and within the cooldowns it causes, the loop gives up only after three accounts, when none is healthy, or when led back to an account whose failure left it in service |
| Failover.MildFailureStops | internal/server/handler.go:118-170 | an undisturbed sticky request is led back to an account it has tried if and only if its first attempt fails without taking its account out of service, or fails otherwise and the second one does so |
| Failover.FirstMildFailure | internal/server/handler.go:131-133 | if the first attempt fails that way it stays the only one, its error is the reply, and no other account is touched |
| Failover.StickyRequestFails | internal/server/handler.go:131-133 | a request with two healthy accounts that fails after one answer 500, the second account never asked |
| Server.FindKey | internal/server/handler.go:263-275 | the loop that finds the sticky key of the messages |
| Replies.KeyHashes | internal/server/handler.go:263-281 | the key is the hash of the text of the first user message, or of its raw content if that is no string or empty |
| Server.ConversationKeepsKey | internal/server/handler.go:263-275 | a conversation keeps its sticky key however it goes on |
| Requests.ConversationReturns | internal/server/handler.go:114-134 | the next request of a conversation, however it has gone on, first tries the account that served the one before, while the entry does not expire and the account is healthy whenever the key is selected |
| Server.RelayStream | internal/server/handler.go:209-249 | one status, the translated body, and the result to record |
| Replies.RepliesRead | internal/server/handler.go:119-181 | status, message and code of every reply that is not a relayed stream, as a client reads them |
| Replies.FailureRead | internal/server/handler.go:240-245 | a stream that fails is a 502 with its error for the client that does not stream |
| Replies.DecimalMeans | internal/verdent/client.go:354-360 | statuses are printed in decimal |
| Heads.ErrorBodyReads | internal/server/status.go:9-20 | the body of an error reply reads as its message with its code as type and code |
| Server.UseAccount | internal/server/handler.go:136-169 | for one selected account: its token from the store or the failure to get one, what is recorded and what is written |
| Server.AttemptOnce | internal/server/handler.go:121-169 | one attempt against the live pool and the live store |
| Server.RunLoop | internal/server/handler.go:118-170 | the loop ends with the pool, the store and the reply of the failover model |
| Server.ChatCompletions | internal/server/handler.go:93-181 | exactly one status on every path; with the key of the messages, pool, store, status and body as the failover model says |
| Normalise.Partition | internal/verdent/client.go:180-194 | splits off the system texts, in order |
| Normalise.NameCalls | internal/verdent/client.go:196-204 | the name map of the conversation |
| Normalise.NamesLastCall | internal/verdent/client.go:196-204 | a call id maps to the name of the last call with that id, and to nothing if there is none |
| Normalise.ToolResultNamed | internal/verdent/client.go:231-252 | in the message list sent, a tool result is a user message headed by the name of the last call with its id, behind the system texts only if it comes first |
| Rendering.UserMessageSent | internal/verdent/client.go:238-255 | a message of the user, or of any role but assistant and tool, is sent after the timestamp with all its texts in order, string or array parts, behind the system texts if it is the user's and first |
| Rendering.AssistantMessageSent | internal/verdent/client.go:215-230 | a message of the assistant is sent as its texts and a line for each tool call with name and arguments, under its own model or else the request's |
| Rendering.SystemTextsSent | internal/verdent/client.go:180-252 | the system texts are the explicit one unless blank and then those of the system messages that are not empty, between tags at the head of a first user message |
| Rendering.GreetingSent | internal/verdent/client.go:253-255 | with nothing to say a greeting is sent |
| Rendering.ContentStringSays | internal/verdent/client.go:144-153 | a content as one string: a string itself, null as nothing, anything else as its JSON text |
| Normalise.NormaliseOne | internal/verdent/client.go:213-240 | one message as role and texts |
| Normalise.FoldSystem | internal/verdent/client.go:243-255 | the folding step |
| Normalise.AppMsg | internal/verdent/client.go:157-174 | timestamp block first, mark on the last block of the last message |
| Normalise.Convert | internal/verdent/client.go:257-265 | the conversion step |
| Normalise.BuildMessages | internal/verdent/client.go:177-265 | steps 1 to 5 |
| Normalise.SystemMessagesMove | internal/verdent/client.go:180-194 | what is sent depends only on the system messages in their order and the other messages in theirs, not on how the two are mixed |
| Normalise.ConversationKept | internal/verdent/client.go:206-255 | one message for each non-system message, in order, after at most one inserted message |
| Normalise.SystemLeads | internal/verdent/client.go:243-252 | the system texts stand in order at the head of a leading user message |
| Normalise.OneCacheMark | internal/verdent/client.go:166-168 | exactly one block is marked: the last of the last message |
| Store.RefreshKeepsId | internal/verdent/store.go:229-238 | when a token refresh keeps the account's id |
| Store.ChangesOne | internal/verdent/store.go:146-208 | a change touches only its own account |
| Store.RunDistinct | internal/verdent/store.go:146-208 | over any run of changes accounts with a user keep pairwise distinct ids |
| Store.AccountStore.Reload | internal/verdent/store.go:83-111 | replaces the list, or changes nothing without a file or on a read or parse error |
| Store.AccountStore.IDs | internal/verdent/store.go:123-131 | the ids in order |
| Store.AccountStore.Get | internal/verdent/store.go:134-143 | the first account with the id |
| Store.AccountStore.Upsert | internal/verdent/store.go:146-168 | replaces the account with the same id or appends |
| Store.AccountStore.UpdateTokens | internal/verdent/store.go:171-185 | sets the token fields of the first account with the id |
| Store.AccountStore.EnsureDeviceID | internal/verdent/store.go:189-208 | returns the device id, generating and keeping one if missing |
| Store.TokenFor | internal/server/handler.go:184-206 | when a token is available, which one, the error otherwise, and what asking does to the store |
| Credentials.IdsEqual | internal/verdent/store.go:229-238 | two accounts have one id exactly if their users are the same, or, with no users, their tokens are, or agree in the first six and last four characters if long |
| Credentials.UpsertStored | internal/verdent/store.go:146-168 | an account put in is found with all it brought, time and label filled in |
| Credentials.TokensStored | internal/verdent/store.go:171-185 | a refresh changes token and expiry, the refresh token if there is a new one, nothing else |
| Credentials.TokenUsed | internal/server/handler.go:184-206 | a token more than a minute from its expiry is used as it is, otherwise the refreshed one, otherwise the old one unless it is empty |
| Credentials.RefreshLasts | internal/server/handler.go:184-206 | until a minute before the expiry it brought, a refreshed token is used without another refresh |
| Credentials.DeviceGiven | internal/verdent/store.go:189-208 | with every token goes a device id, the account's own or a new one that is kept |
| Store.TokenKeepsUsers | internal/server/handler.go:184-206 | asking for a token never loses an account with a user |
| Text.JoinInjective | cmd/server/main.go:96-102 | a list of non-empty NUL-free ids can be read back from its signature |
| Text.TrimSpaceMeans | internal/verdent/store.go:230 | trimming takes all white space off both ends and changes nothing else |
| Text.JoinConcat | internal/verdent/client.go:218-228 | joining puts the separator between the parts |
| Reloader.SignatureExact | cmd/server/main.go:102-105 | equal signatures iff equal id lists, for ids without NUL |
| Reloader.SignatureAmbiguous | cmd/server/main.go:96-102 | a NUL in a user id makes one account look like two |
| Reloader.RunReloader | cmd/server/main.go:93-110 | whatever requests do to store and pool between ticks and in the middle of them, the pool holds exactly the accounts it was last refreshed from, and it is refreshed by exactly the ticks that load other ids than the last one that refreshed it |
| Reloader.InStepAfterTick | cmd/server/main.go:102-108 | after a successful tick that refreshes, the pool is refreshed from the store as it is; after one that does not, it is in step with what was loaded if and only if the last refresh found the ids the loop had compared |
| Reloader.QuietInStep | cmd/server/main.go:93-110 | if no tick that refreshes is disturbed in the middle, the pool is in step with what every successful tick has loaded |
| Reloader.TickRace | cmd/server/main.go:102-108 | a login between the comparison and the refresh that can leave the pool out of step for good |

## Left out

- Transport, client fingerprint, request headers and the upstream call itself: network plumbing; the outcome of each call is an input.
- Login and token exchange: HTTP calls; a refresh either succeeds with new values or fails.
- The encryption envelope: `BuildMessages` ends at the plaintext message list.
- Body assembly after step 5, template fields, timestamps and dates, tool and tool-choice conversion: field overwrites and easy members; the timestamp block is a parameter.
- JSON text: parsing and printing are a parameter, `Codec`.
- Invalid UTF-8 and byte offsets: text is characters, so the 200- and 300-unit truncations and the token fingerprint count characters instead of bytes, and an ill-formed byte sequence has no counterpart.
- Floating-point rounding: weights are reals.
- Integer wrap-around: counters and durations are unbounded; only JSON integers have the 64-bit limit.
- File system: a pool save replaces the file atomically and succeeds; the account file is an input of every reload, and saving it is not modelled.
- Account labels in the pool, `/status`, `/healthz`, `/v1/models`, the catalogue and configuration: easy members.
- Select: the clock is read once per selection in the class; `Interleaving` lets it advance between the steps, and there the random draw of each choice is an input.
- Tool accumulators and pool states: the code holds pointers to them inside maps; the model holds values in the maps and replaces them, since no pointer leaves its map.
- Serve: in the loop over accounts a selection is one step, and others act before and after it; selections that overlap are the subject of `Interleaving` and `StickyRuns`.
- TokenFor: getting the account, refreshing the token and writing it back are one step; another request may change the store before or after it, not in between, and which token the upstream call then carries is not modelled.
- StreamTo and Aggregate: their local variables are grouped in a record and their switch statements are methods of their own.
- HTTP headers and flushing of the response: only status lines and body are modelled.
- ChatCompletions: the body-size limit and the default model name are not modelled, as the messages only enter through the sticky key and `Normalise`.
