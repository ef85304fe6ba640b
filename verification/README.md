# A verified model of AgenticOS

This project models the parts of AgenticOS whose correctness depends on order, state or arithmetic,
and proves what they promise, in Dafny 4.11. `dafny verify dfyconfig.toml` checks all of it.

| file | models |
|---|---|
| React.dfy | one turn of the ReAct engine: the loop of `run_react`, against a specification `Play` |
| ReactTheorems.dfy | what every turn keeps: message blocks, the event grammar, policy gating, truthful totals |
| ReactOutcomes.dfy | each call's result event and tool message say what the proxies answered |
| ReactRecords.dfy | what every request holds, and that a turn's record of the answers is honest |
| Persistence.dfy | folding a turn into a result, and the two ways of saving it |
| AuditChain.dfy | hashing and verifying audit rows, tamper evidence, the appending emitter |
| AuditEmission.dfy | emission order against verification order |
| Chunker.dfy | packing paragraphs into token windows, the strided split, pages |
| ChatSocket.dfy | the WebSocket reader and its stream tasks, step by step, in every interleaving |
| ChatRuns.dfy | every message gets its run, every run can end, every stop and failure is told |
| Sse.dfy | printing, relaying and decoding server-sent events |
| Quota.dfy | fixed-window counters in Redis: request and token quotas, and the HTTP rate limit |
| Base64.dfy, SecretsBox.dfy | envelopes for secrets, and the walk over a JSON tree |
| Search.dfy | reciprocal rank fusion and the hybrid search built on it |
| Luhn.dfy | the card-number check of the redactor |
| AgentTools.dfy | agents, version snapshots, and the join table that mirrors tool lists |
| Transcript.dfy | the length-limited transcript of a session |
| ShortTerm.dfy | the trimmed short-term buffer |
| Common.dfy | shared types and text functions |

Where the source updates state, the model does too: loops are `while` and `for` loops with invariants,
services are classes. Each such method is proved against a function, and the theorems are about the
function. What lies outside is a parameter, and every theorem holds for all its values: the LLM, tool,
policy and search services are functions of what they are asked and how often; SHA-256, the cipher,
JSON, the tokenizer, UUID text and case folding are functions with the laws a theorem names
(`Collisionless`, `PrintsTellIds`, `PrintsTellApart`, `Lawful`). Redis is a map of counters or lists, a
database table a
map, set or sequence. Times are given with each call.

## Where the code differs from what it says

The model follows the code. These are theorems, each with the exact condition:

- `/run` and `/run/stream` do not always save the same messages: an empty final answer, or an error
  after citations, is saved by the two in different ways (`SavesAgree`, `PlayedTurnsDiffer`).
- A run on the chat socket can send `done` and then `cancelled` or `error`: a cancel or an exception
  may still reach the stream task while it sends its done frame or closes the upstream
  (`NoticesOfARun`, `DoneThenAnother`, `DoneThenHangUp`). The cancel flag that the stream polls between
  lines never takes effect, because the stream task's own cancellation always arrives first
  (`FlagIsNeverSeen`). A client that disconnects while the reader waits for a message leaves its run
  going; the handler that cancels it is reached only when a reply of the reader finds the client gone
  (`LeavingCancelsIff`).
- A non-positive request limit also switches off the daily token budget (`OvershootIsBoundedIff`,
  `BudgetNeedsRequestLimit`).
  The counters' `EXPIRE` is renewed at every increment, not set the first time as the docstring of
  `_incr` says; the "token bucket" of the rate limiter is a fixed window, and so lets up to twice the
  limit through in sixty seconds (`WindowBound`, `TwiceIsReached`).
- Deleting a tool removes its join rows in every workspace but prunes the lists of one, and only
  entries in printed form; the join table then differs from the lists (`DeleteToolMirrors`,
  `MirrorsThroughoutIff`, `ForeignDeletionBreaksMirror`), and an agent left with a stale id can bind no
  tool (`BindFailsIff`). The pruned agent's newest snapshot is not updated (`SnapshotsKept`,
  `DeletionLeavesSnapshotBehind`).
- The transcript can be one character longer than its limit (`GatherTranscript`, `CutMeans`,
  `LimitIsExceeded`).
- A cap or limit of 0 on the short-term buffer keeps or reads everything (`LimitIsKept`,
  `ZeroCapKeepsAll`).
- The audit chain verifies only if events were emitted in the order of their timestamps and ids
  (`VerifiesIffInOrder`).

## Model

| member | source | states |
|---|---|---|
| React.ConsumeChunk | services/agent_runtime/src/agent_runtime/graphs/react.py:191-202 | the loop over one streamed chunk extends the delta events, the text and the tool calls by exactly those of the chunk |
| React.ConsumeStream | services/agent_runtime/src/agent_runtime/graphs/react.py:184-202 | the streaming loop ends with the delta events, the joined text and the joined tool calls of all chunks, and knows whether there was any chunk |
| React.AskStreaming | services/agent_runtime/src/agent_runtime/graphs/react.py:187-227 | the streaming request of a round has the effect `DoStream`: error, final answer, or fall through to the plain request |
| React.Dispatch | services/agent_runtime/src/agent_runtime/graphs/react.py:309-396 | the tool-call loop has the effect `DoCalls`, or leaves the turn where a proxy raises |
| React.AskOnce | services/agent_runtime/src/agent_runtime/graphs/react.py:229-396 | the rest of a round has the effect `DoChat`: error, final answer, or one round of tool calls |
| React.RunReact | services/agent_runtime/src/agent_runtime/graphs/react.py:82-402 | the whole generator yields, asks and invokes what the specification `Play` says, for all behaviours of the proxies; the theorems below say what that is |
| ReactTheorems.EveryTurn | services/agent_runtime/src/agent_runtime/graphs/react.py:134-402 | for all proxies: a turn that returns ends in a trace of the grammar, obeyed the policy call by call, invoked exactly the allowed calls in order, told true totals and rounds, showed all the text that was streamed, and never exceeds max_iterations; a turn cut short by an exception shows no final and no error event and invoked only what was allowed |
| ReactTheorems.QuietTurnEnds | services/agent_runtime/src/agent_runtime/graphs/react.py:162-402 | if no proxy raises outside the caught LLM calls, and call arguments are objects or text, every turn returns and its trace is complete |
| ReactTheorems.PromptsArePrefixAndBlocks | services/agent_runtime/src/agent_runtime/graphs/react.py:149-396 | after the prepared messages every request carries complete blocks only: an assistant message with k >= 1 calls, then k tool messages with those calls' ids and names in order |
| ReactTheorems.LogIsBlocks | services/agent_runtime/src/agent_runtime/graphs/react.py:295-396 | any log the message automaton accepts is complete blocks followed by at most one block whose first calls are answered in order |
| ReactTheorems.GrammarMeans | services/agent_runtime/src/agent_runtime/graphs/react.py:198-279 | in a complete trace the last event is the only final or error; each tool call is followed at once by its own result, and each result follows its own call |
| ReactTheorems.OpeningMeans | services/agent_runtime/src/agent_runtime/graphs/react.py:110-140 | citations come first or not at all, and the step event comes exactly once, right after them |
| ReactTheorems.FinalIsSuffixOfDeltas | services/agent_runtime/src/agent_runtime/graphs/react.py:184-280 | the final content is a suffix of the streamed deltas, and equal to them exactly when no streamed text was dropped for tool calls |
| ReactTheorems.CallKeeps | services/agent_runtime/src/agent_runtime/graphs/react.py:309-396 | one tool call, unparsable, denied, failed or successful, keeps messages, events, policy record and totals in step |
| ReactTheorems.ChatKeeps | services/agent_runtime/src/agent_runtime/graphs/react.py:229-396 | one plain request keeps the invariant of a turn or ends the turn truthfully |
| ReactTheorems.StreamKeeps | services/agent_runtime/src/agent_runtime/graphs/react.py:187-227 | one streaming request keeps the invariant of a turn or ends the turn truthfully |
| ReactOutcomes.EveryOutcomeIsTold | services/agent_runtime/src/agent_runtime/graphs/react.py:326-396 | in every turn that returns, the k-th result event and the k-th tool message say what the policy or the tool service answered to the k-th call: denial and reason, result, or error |
| ReactOutcomes.CallsTell | services/agent_runtime/src/agent_runtime/graphs/react.py:309-396 | the tool-call loop keeps events, tool messages and answers paired, call by call |
| ReactRecords.RequestsCarryTheConversation | services/agent_runtime/src/agent_runtime/graphs/react.py:36-62 | every request of every turn opens with the system prompt if there is one, the retrieved context if there is any, the whole history in order, and the user message |
| ReactRecords.EveryRecordIsHonest | services/agent_runtime/src/agent_runtime/graphs/react.py:108-402 | in every turn that returns: the i-th reply of a kind is what the LLM gives on the i-th request of that kind; each request is the log as it then stood; the policy was asked about each call with the scopes of the tool its name stands for and the arguments of the reply; assistant messages, calls and thoughts are those of the replies, in order; and the last reply, or the limit, decides the last event and its text |
| ReactRecords.EveryEscapeHasACause | services/agent_runtime/src/agent_runtime/graphs/react.py:108-396 | a turn is left by an exception only when the search or the listing raised, or the call at hand had arguments nobody parses, or the policy or the tool service raised on it |
| ReactRecords.WantedOneByOne | services/agent_runtime/src/agent_runtime/graphs/react.py:143-147 | a listed tool is used exactly when the agent names it and it is enabled, in the listed order |
| ReactRecords.LookupMeans | services/agent_runtime/src/agent_runtime/graphs/react.py:307-325 | a name stands for the last usable tool of that name, and for none if there is none |
| ReactRecords.QueryAsksAbout | services/agent_runtime/src/agent_runtime/graphs/react.py:325-337 | a policy question names that tool, or an empty id and no scopes, and the arguments if they are an object |
| ReactRecords.ParseReads | services/agent_runtime/src/agent_runtime/graphs/react.py:310-316 | the arguments of a call are the object given, or the value its text denotes, or an empty object |
| ReactRecords.StreamReads | services/agent_runtime/src/agent_runtime/graphs/react.py:191-202 | each delta adds its text, one event if the text is not empty, and its calls |
| ReactRecords.FallsBackMeans | services/agent_runtime/src/agent_runtime/graphs/react.py:184-211 | a streamed reply gives way to a plain request exactly when nothing came, or a delta asked for tools, and nothing was raised |
| ReactRecords.ChunkingPlaysNoPart | services/agent_runtime/src/agent_runtime/graphs/react.py:189-202 | how chunks divide the deltas makes no difference to the text and the calls |
| Common.StripMeans | services/agent_runtime/src/agent_runtime/graphs/react.py:286 | stripping takes white space off both ends and nothing else |
| Common.SpacesAreThese | services/agent_runtime/src/agent_runtime/graphs/react.py:286 | the characters that count as white space |
| Common.DecimalShows | services/agent_runtime/src/agent_runtime/graphs/react.py:398-402 | the limit in the error message is shown by its decimal digits |
| Persistence.CollectResult | services/agent_runtime/src/agent_runtime/runner.py:57-111 | the event loop of `run_agent` computes the fold of the trace |
| Persistence.SaveRun | services/agent_runtime/src/agent_runtime/routes.py:138-187 | `/run` saves the tool rows of the trace, and an answer row when there is an answer or an error |
| Persistence.SaveStream | services/agent_runtime/src/agent_runtime/routes.py:262-331 | `/run/stream` saves its rows by replaying the trace |
| Persistence.SavesAgree | services/agent_runtime/src/agent_runtime/routes.py:138-331 | for every complete trace whose final event repeats the cited hits, both ways save the same rows and short-term memory if and only if the answer is not empty, or the turn failed with a non-empty message and cited nothing |
| Persistence.TurnSavesAgree | services/agent_runtime/src/agent_runtime/routes.py:138-331 | the same for every turn the engine can play |
| Persistence.SavesCanDiffer | services/agent_runtime/src/agent_runtime/routes.py:166-179 | an empty final answer, and an error after citations, are saved differently by the two routes |
| Persistence.PlayedTurnsDiffer | services/agent_runtime/src/agent_runtime/routes.py:166-179 | turns the engine plays end so: an LLM that answers nothing, and one that fails after a search with hits |
| Persistence.ResultsPair | services/agent_runtime/src/agent_runtime/runner.py:81-97 | the folded tool-call and tool-result lists pair index by index, id and name |
| Persistence.TurnResult | services/agent_runtime/src/agent_runtime/runner.py:81-111 | the result of every turn: paired lists; on success the token sums of the plain replies, the rounds, the hits and the final content; on failure the error, the hits, and no message, rounds or tokens |
| Persistence.FoldedCalls | services/agent_runtime/src/agent_runtime/runner.py:81-97 | the calls and results of the folded result are those of the trace, in order |
| Persistence.FoldOneByOne | services/agent_runtime/src/agent_runtime/runner.py:57-111 | each event changes its own part of the result; a final event that cites nothing keeps the citations |
| Persistence.SavedRowsMean | services/agent_runtime/src/agent_runtime/routes.py:139-331 | both routes save two rows for the k-th call of every turn, the call and its answer cut to 8000 characters or its error, then the answer with the hits and the token sums, or an empty row for an error; which rows `/run` leaves out |
| AuditChain.CanonicalPayload | services/shared/src/agenticos_shared/audit_chain.py:62-75 | the loop projects a row on exactly its fifteen named columns, coerced |
| AuditChain.NamedColumnsAreHashed | services/shared/src/agenticos_shared/audit_chain.py:40-75 | every named column of a row is hashed, under its name, and no other |
| AuditChain.CoercionReads | services/shared/src/agenticos_shared/audit_chain.py:45-59 | two values are coerced alike if and only if they read alike: the same texts, flags and numbers under the same names, uuids and datetimes by the text they print as, a datetime without offset as UTC |
| AuditChain.CanonicalReads | services/shared/src/agenticos_shared/audit_chain.py:62-75 | two rows have the same hashed content if and only if each named column reads alike in both |
| AuditChain.AlikeRowsHashAlike | services/shared/src/agenticos_shared/audit_chain.py:45-86 | rows whose hashed columns name the same things hash the same, however their datetimes are tagged, in whatever order their dicts are and whatever their other columns |
| AuditChain.ReorderedIsAlike | services/shared/src/agenticos_shared/audit_chain.py:55-82 | a dict with its entries in another order names the same things |
| AuditChain.VerifyChain | services/shared/src/agenticos_shared/audit_chain.py:89-145 | the report lists the faults of the list, and ok plus broken is the number of hashed rows; the theorems below say what the faults are |
| AuditChain.CleanMeans | services/shared/src/agenticos_shared/audit_chain.py:104-145 | no fault is reported if and only if every hashed row links to the nearest hashed row before it and carries its own digest |
| AuditChain.PrefixReport | services/shared/src/agenticos_shared/audit_chain.py:104-145 | verifying a prefix reports a prefix of the faults |
| AuditChain.UnhashedRowsChangeNothing | services/shared/src/agenticos_shared/audit_chain.py:112-115 | rows without a hash change neither the faults nor the link, wherever they stand |
| AuditChain.TamperingIsLocalised | services/shared/src/agenticos_shared/audit_chain.py:116-137 | rewriting one row of a clean list without its hash columns is reported as exactly that row with the digest now expected, unless the digest is unchanged |
| AuditChain.ColumnTamperingIsFound | services/shared/src/agenticos_shared/audit_chain.py:62-137 | changing what any named column of a clean row reads as is reported as exactly that row, if the digest tells the two contents apart |
| AuditChain.RelinkingIsLocalised | services/shared/src/agenticos_shared/audit_chain.py:116-126 | pointing a row of a clean list at anything but the hash before it is reported as exactly that |
| AuditChain.LinkIsHashBefore | services/shared/src/agenticos_shared/audit_chain.py:104-137 | the running link is the hash of the nearest hashed row before, or 64 zeroes |
| AuditChain.CleanRowByRow | services/shared/src/agenticos_shared/audit_chain.py:104-137 | no fault is reported if and only if each hashed row names the hash before it, or none, and holds the digest of that hash followed by its printed content |
| AuditChain.LastHashPinsTheLog | services/shared/src/agenticos_shared/audit_chain.py:78-145 | two clean lists of hashed rows that end in the same hash have the same length, and every hashed field of every row prints the same in both, provided that on these rows digests collide only for equal inputs and equal texts come from equal contents |
| AuditChain.LastHashPinsEveryColumn | services/shared/src/agenticos_shared/audit_chain.py:40-145 | under the same conditions every named column of every row reads alike in both lists |
| AuditChain.AuditLog.Emit | services/api_gateway/src/api_gateway/audit_bus.py:80-113 | one emit appends the event chained to the latest hashed row by (created_at, id), or nothing if the id is taken |
| AuditChain.AuditLog.Verify | services/api_gateway/src/api_gateway/routes/audit.py:105-112 | the route reports the faults of the first rows in (created_at, id) order, a prefix of the faults of the whole table |
| AuditEmission.EmitsAppend | services/api_gateway/src/api_gateway/audit_bus.py:80-113 | with fresh ids every emit adds one row, and the rows do not depend on the unhashed ones |
| AuditEmission.LatestMeans | services/api_gateway/src/api_gateway/audit_bus.py:85-95 | the row an emit links to is hashed, and no hashed row comes after it by (created_at, id) |
| AuditEmission.EmitMeans | services/api_gateway/src/api_gateway/audit_bus.py:80-113 | an emit adds the columns of the event, linked to that row or to 64 zeroes, with the digest of the link followed by the printed content |
| AuditEmission.DigestsDiffer | services/shared/src/agenticos_shared/audit_chain.py:78-86 | two emitted rows never share a digest, and none has the genesis digest |
| AuditEmission.InOrderIsClean | services/api_gateway/src/api_gateway/audit_bus.py:85-113 | events emitted in strictly increasing (created_at, id) order leave no fault |
| AuditEmission.DisorderIsFound | services/api_gateway/src/api_gateway/audit_bus.py:85-113 | the first event emitted out of order leaves a fault when the table is read in order |
| AuditEmission.VerifiesIffInOrder | services/api_gateway/src/api_gateway/audit_bus.py:85-113 | a table of any unhashed rows and then sequential emits verifies without a fault if and only if the events came in strictly increasing (created_at, id) order, provided that digests of these rows collide only for equal inputs and rows that print the same have the same id |
| AuditEmission.AssumptionsCanHold | services/shared/src/agenticos_shared/audit_chain.py:78-86 | for every list of events with ids of their own in some range there is a codec that meets what the theorem asks of it |
| AuditEmission.TamperAssumptionsCanHold | services/shared/src/agenticos_shared/audit_chain.py:78-86 | whatever two lists of rows hold, and however they differ, there is a codec that meets what tamper evidence asks on them |
| Chunker.PackWindows | services/knowledge_svc/src/knowledge_svc/chunker.py:99-119 | the packing loop computes the windows, each opening with the overlap of the one before |
| Chunker.HardSplit | services/knowledge_svc/src/knowledge_svc/chunker.py:121-130 | the strided loop ends and computes the pieces of every window |
| Chunker.EmitChunks | services/knowledge_svc/src/knowledge_svc/chunker.py:132-145 | the last loop gives the chunks of the pieces |
| Chunker.ChunkTextLoop | services/knowledge_svc/src/knowledge_svc/chunker.py:73-145 | `chunk_text`, with its two errors and its empty result; the theorems below say what the chunks are |
| Chunker.ChunkPages | services/knowledge_svc/src/knowledge_svc/chunker.py:36-70 | `chunk_pages`: the chunks of the pages, stamped with their page and renumbered from 0 without gaps; an error of a page is an error of the whole |
| Chunker.ParagraphsKeepText | services/knowledge_svc/src/knowledge_svc/chunker.py:95-97 | splitting into paragraphs drops white space only, and the fallback to the whole text is never needed |
| Chunker.SplitsAtBlankLines | services/knowledge_svc/src/knowledge_svc/chunker.py:95 | the text is cut at its first blank line, then at the first of the rest, and so on |
| Chunker.PartsOneByOne | services/knowledge_svc/src/knowledge_svc/chunker.py:95-99 | blank parts are dropped, the others stripped, and each is encoded with a blank line after it |
| Chunker.PackIsLossless | services/knowledge_svc/src/knowledge_svc/chunker.py:102-119 | dropping what each window carried over from the one before gives back every paragraph token in order |
| Chunker.PackIsGreedy | services/knowledge_svc/src/knowledge_svc/chunker.py:102-119 | the windows take the paragraphs in order without a gap, each behind what the one before carried over; a window is left only when the paragraph right after it does not fit, and exceeds the size only when just its last paragraph adds anything |
| Chunker.GreedyAt | services/knowledge_svc/src/knowledge_svc/chunker.py:102-119 | window i is what the window before it carried over, then some of the paragraphs in a row |
| Chunker.WindowsOverlap | services/knowledge_svc/src/knowledge_svc/chunker.py:111-116 | of two windows in a row, the second opens with the last overlap tokens of the first, or is whole paragraphs only when the first is not longer than the overlap |
| Chunker.SplitRejoins | services/knowledge_svc/src/knowledge_svc/chunker.py:123-130 | the pieces of a window, each later one without its first min(overlap, length) tokens, join to the window |
| Chunker.StartMeans | services/knowledge_svc/src/knowledge_svc/chunker.py:127-130 | the j-th start of the strided loop is j strides on |
| Chunker.PieceAt | services/knowledge_svc/src/knowledge_svc/chunker.py:123-130 | piece j starts at j * (size - overlap) and is size tokens long or reaches the end of the window |
| Chunker.WindowPieces | services/knowledge_svc/src/knowledge_svc/chunker.py:123-130 | a window that fits is its own only piece; a longer one is cut from its start |
| Chunker.PieceCountIsCeiling | services/knowledge_svc/src/knowledge_svc/chunker.py:127-130 | an oversized window of n tokens gives exactly ceil(n / (chunk_size - overlap)) pieces |
| Chunker.PiecesFit | services/knowledge_svc/src/knowledge_svc/chunker.py:99-130 | every final piece holds between 1 and chunk_size tokens |
| Chunker.ChunkingIsLossless | services/knowledge_svc/src/knowledge_svc/chunker.py:94-130 | end to end: the pieces, grouped by window, give back every token of every paragraph, and each window opens with the last overlap tokens of the one before, or, if that one is not longer than the overlap, is whole paragraphs only |
| Chunker.ChunkIsPiece | services/knowledge_svc/src/knowledge_svc/chunker.py:133-144 | each chunk is the stripped text and the length of the piece that has its number |
| Chunker.PiecesHaveChunks | services/knowledge_svc/src/knowledge_svc/chunker.py:133-144 | each piece with text has its chunk |
| Chunker.ChunkTextMeans | services/knowledge_svc/src/knowledge_svc/chunker.py:85-145 | a blank text has no chunks whatever the sizes; then a size that is not positive and an overlap outside it are refused, in that order; else the chunks are those of the final pieces |
| Chunker.OrdsRise | services/knowledge_svc/src/knowledge_svc/chunker.py:133-139 | the numbers of the chunks rise strictly |
| Chunker.PagesRise | services/knowledge_svc/src/knowledge_svc/chunker.py:50-69 | page numbers run from 1 to the number of pages and never go back |
| Chunker.PageByPage | services/knowledge_svc/src/knowledge_svc/chunker.py:50-69 | the chunks stamped with a page are exactly the chunks of that page alone, in order |
| ChatSocket.AlwaysInv | services/api_gateway/src/api_gateway/routes/chat.py:129-209 | the invariant of the protocol holds after every interleaving of client messages, upstream lines and wake-ups: one live task, what each task has forwarded and noticed, run order in the log |
| ChatSocket.OneLiveTask | services/api_gateway/src/api_gateway/routes/chat.py:176-204 | at most one stream task is unfinished, and it is the newest |
| ChatSocket.OutputIsIsolated | services/api_gateway/src/api_gateway/routes/chat.py:129-204 | no frame of an older run follows one of a newer run, and no frame of a run follows its handled cancel |
| ChatSocket.NoticesOfARun | services/api_gateway/src/api_gateway/routes/chat.py:139-209 | a run sends at most two frames of the gateway's own, and two if and only if, after its done frame is handed over and before the upstream is closed, an exception hits it, or it is stopped, by the client or by a reply that finds the client gone, and it then wakes and leaves the stream; they are done and then cancelled or error |
| ChatSocket.DoneThenAnother | services/api_gateway/src/api_gateway/routes/chat.py:152-165 | both happen: concrete interleavings that send done and then cancelled, and done and then error, for one run |
| ChatSocket.DoneThenHangUp | services/api_gateway/src/api_gateway/routes/chat.py:152-208 | so does the third: a reply that finds the client gone while the done frame goes out |
| ChatSocket.FlagIsNeverSeen | services/api_gateway/src/api_gateway/routes/chat.py:129-148 | the cancel flag the stream polls between lines is never seen set: the cancellation of the stream task always comes first |
| ChatSocket.ForwardsWhatItReads | services/api_gateway/src/api_gateway/routes/chat.py:143-159 | what a run forwards is, in order, what the lines it read decode to |
| ChatSocket.LeavingCancelsIff | services/api_gateway/src/api_gateway/routes/chat.py:167-209 | a run live when the reader ends is never replaced, and is cancelled if and only if the end is a disconnect that surfaces in a reply of the reader; a client that leaves at the receive leaves its run going |
| ChatSocket.EventsReachTheClient | services/api_gateway/src/api_gateway/routes/chat.py:143-159 | a run that read a printed and relayed stream up to its end mark has sent exactly the events, in order, then done, and nothing else if and only if it was not stopped or hit by an exception after that |
| ChatSocket.AlwaysEventsFirst | services/api_gateway/src/api_gateway/routes/chat.py:143-165 | the frames of a run are its events and then the gateway's own frames |
| ChatSocket.DecodeOne | services/api_gateway/src/api_gateway/routes/chat.py:149-159 | what one line decodes to: nothing, an event, or the end |
| ChatSocket.DecodeSnoc | services/api_gateway/src/api_gateway/routes/chat.py:143-159 | before the end mark lines are decoded one by one, in order |
| ChatSocket.DecodeStops | services/api_gateway/src/api_gateway/routes/chat.py:152-154 | after the end mark nothing is decoded |
| ChatRuns.EveryMessageGetsItsRun | services/api_gateway/src/api_gateway/routes/chat.py:178-191 | after every interleaving the texts of the runs, and then the text the reader holds while it waits for a run to finish, are the messages with text taken from the client, stripped, in order: none is dropped, doubled or passed over |
| ChatRuns.EveryRunCanEnd | services/api_gateway/src/api_gateway/routes/chat.py:132-191 | from every state five inputs end the newest run, and all are then finished; a reader that waited receives again, and the message it held has its run |
| ChatRuns.EveryRunIsAccounted | services/api_gateway/src/api_gateway/routes/chat.py:139-209 | the lines a run has read are those delivered to it while it waited for them; it was cancelled if and only if the client, or a reply that found it gone, stopped it while it was live; its error frames are the exceptions that reached its stream, cut to 300 characters |
| ChatRuns.FinishedRunsSaySo | services/api_gateway/src/api_gateway/routes/chat.py:160-165 | a finished run that was never stopped sent no cancelled frame; one that was stopped ends with a cancelled or an error frame, unless it was struck before it began, and then it sent nothing |
| ChatRuns.EveryReplyHasItsCause | services/api_gateway/src/api_gateway/routes/chat.py:192-205 | the log holds, besides the frames of runs, exactly a pong for each ping, a notice for each cancel with nothing to cancel, and the end of each wait for a stopped run, in order |
| Sse.PrintEvents | services/agent_runtime/src/agent_runtime/routes.py:253-333 | the stream route prints each event as a data line and a blank line, then the end mark |
| Sse.Relay | services/api_gateway/src/api_gateway/routes/agents.py:929-931 | the gateway relays every non-empty line with a blank line after it |
| Sse.DecodeLines | sdk/python/agenticos/src/agenticos/client.py:430-439 | the SDK decoder yields the payloads that parse, up to the end mark |
| Sse.RelayIsIdempotent | services/api_gateway/src/api_gateway/routes/agents.py:929-931 | relaying any text twice gives what relaying it once gives |
| Sse.RelayKeepsLines | services/api_gateway/src/api_gateway/routes/agents.py:929-931 | relaying any text keeps its lines with text, and so what it decodes to |
| Sse.SplitsAtBreaks | services/api_gateway/src/api_gateway/routes/agents.py:929-931 | lines end at each break, a carriage return with a newline being one; text after the last break is a line if there is any |
| Sse.BreaksAreThese | services/api_gateway/src/api_gateway/routes/agents.py:929-931 | the characters that end a line |
| Sse.WireFormat | services/agent_runtime/src/agent_runtime/routes.py:260-333 | on the wire each payload stands after `data: ` with a blank line behind it, and `[DONE]` comes last |
| Sse.StreamRoundTrip | services/agent_runtime/src/agent_runtime/routes.py:260-333 | for single-line payloads other than the end mark, the relay leaves a printed stream as it is, and decoding it, relayed or not, gives the payloads that parse, in order, and the end mark |
| Sse.ParsedUndoesDumps | sdk/python/agenticos/src/agenticos/client.py:432-439 | with a serialiser the parser undoes, decoding gives the events back |
| Sse.EventsComeBack | services/agent_runtime/src/agent_runtime/routes.py:253-333 | events written on one line and never as the end mark come back, in order, from printing, relaying and decoding |
| Quota.Redis.Incr | services/llm_gateway/src/llm_gateway/quota.py:55-62 | INCRBY with EXPIRE: the new value, and an expiry renewed from now; an expired counter starts again from 0 |
| Quota.QuotaService.ReadsAreCounts | services/llm_gateway/src/llm_gateway/quota.py:37-76 | no counter expires while its minute or day is current: reading it gives the exact number of requests or tokens so far |
| Quota.QuotaService.CheckAndReserveRequest | services/llm_gateway/src/llm_gateway/quota.py:64-87 | the answer is that of plain counting over all calls so far, with no expiry: too many requests, budget spent, or admitted with both counts |
| Quota.QuotaService.AddTokens | services/llm_gateway/src/llm_gateway/quota.py:89-95 | the day's recorded total, or 0 when there is no workspace, no daily limit or nothing to add |
| Quota.RateLimiter.Dispatch | services/api_gateway/src/api_gateway/rate_limit.py:100-133 | a request is refused exactly when it is counted and is beyond the limit of its minute; the retry time ends in the next minute; otherwise the remaining count is exact |
| Quota.MinuteBound | services/llm_gateway/src/llm_gateway/quota.py:64-81 | each minute admits at most rpm_limit requests, and with no daily budget exactly the first min(rpm_limit, asked) |
| Quota.AdmittedIff | services/llm_gateway/src/llm_gateway/quota.py:64-87 | with a request limit, a request is admitted if and only if fewer than rpm_limit others of its minute and less than daily_token_limit tokens of its day came before, or there is no daily limit; the request limit is looked at first |
| Quota.MinuteIsExact | services/llm_gateway/src/llm_gateway/quota.py:64-81 | as long as the budget of its day lasts, a minute admits exactly the first min(rpm_limit, asked) |
| Quota.SpentStaysSpent | services/llm_gateway/src/llm_gateway/quota.py:89-95 | a budget once spent stays spent for the day |
| Quota.WindowBound | services/llm_gateway/src/llm_gateway/quota.py:42-81 | any sixty seconds admit at most twice rpm_limit |
| Quota.TwiceIsReached | services/llm_gateway/src/llm_gateway/quota.py:42-81 | that factor is reached, for every limit |
| Quota.OvershootIsBounded | services/llm_gateway/src/llm_gateway/quota.py:64-95 | with both limits positive and at most m requests in flight of at most t tokens each, a day's recorded total stays below daily_token_limit + m*t |
| Quota.OvershootIsBoundedIff | services/llm_gateway/src/llm_gateway/quota.py:64-95 | with a daily limit, that bound holds of all such runs if and only if rpm_limit is positive too |
| Quota.BudgetNeedsRequestLimit | services/llm_gateway/src/llm_gateway/quota.py:65-66 | with rpm_limit <= 0 the daily budget is not enforced: one request at a time spends any amount |
| Base64.RoundTrip | services/shared/src/agenticos_shared/secrets_box.py:38-46 | base64url text with its padding stripped and restored by length decodes to its bytes (section 5 of RFC 4648) |
| Base64.EncodeFeeds | services/shared/src/agenticos_shared/secrets_box.py:38-46 | the lenient decoder, fed encoded text, gives the bytes and is never left inside a group |
| Base64.PadsComeBack | services/shared/src/agenticos_shared/secrets_box.py:38-45 | stripping the padding and adding -len % 4 signs gives the encoded text back |
| Base64.DecodesUnlessOneIsLeft | services/shared/src/agenticos_shared/secrets_box.py:45-46 | text of digits padded by its length decodes unless exactly one digit is left for its last group |
| Base64.DigitsAreTheAlphabet | services/shared/src/agenticos_shared/secrets_box.py:38 | digits are those of table 2 of RFC 4648, each with its value |
| Base64.DecoderTakesBothAlphabets | services/shared/src/agenticos_shared/secrets_box.py:46 | the decoder takes these, and + and / for the last two, and nothing else |
| Base64.GroupsKeepTheNumber | services/shared/src/agenticos_shared/secrets_box.py:38 | up to three bytes and their four digits make the same 24-bit number, with a pad for each missing byte (section 4 of RFC 4648) |
| Base64.EncodeByGroups | services/shared/src/agenticos_shared/secrets_box.py:38 | longer input is encoded three bytes at a time |
| SecretsBox.EnvelopeRoundTrip | services/shared/src/agenticos_shared/secrets_box.py:33-53 | an envelope is recognised and opens to its text for any nonce; encryption fails only for empty key material or text that has no encoding |
| SecretsBox.EnvelopeHolds | services/shared/src/agenticos_shared/secrets_box.py:33-38 | an envelope is `v1:` and then the nonce and the sealed text in base64url |
| SecretsBox.OnlyThisVersionOpens | services/shared/src/agenticos_shared/secrets_box.py:41-53 | a text counts as an envelope when it begins with `v1:`, and nothing opens that has another version |
| SecretsBox.PartitionMeans | services/shared/src/agenticos_shared/secrets_box.py:42 | the version is what stands before the first colon |
| SecretsBox.SensitiveNames | services/shared/src/agenticos_shared/secrets_box.py:59-76 | a name is sensitive if and only if, folded and with underscores for dashes and spaces, it contains one of the nine words, each named here |
| SecretsBox.SpelledAnyway | services/shared/src/agenticos_shared/secrets_box.py:59-76 | a name is sensitive wherever one of the words stands in it, with dashes or spaces for underscores |
| SecretsBox.EncryptSensitiveFields | services/shared/src/agenticos_shared/secrets_box.py:79-97 | the walk gives a tree of the same shape in which exactly the sensitive, non-empty, not yet enveloped strings became envelopes of themselves; it fails exactly when one of them cannot be encrypted |
| SecretsBox.DecryptSensitiveFields | services/shared/src/agenticos_shared/secrets_box.py:100-118 | the walk opens every enveloped dict string that opens, and keeps everything else |
| SecretsBox.TreeRoundTrip | services/shared/src/agenticos_shared/secrets_box.py:79-118 | for any nonces, decrypting the encrypted tree gives it back if and only if no dict string of it already opens to something else |
| SecretsBox.EncryptionIsIdempotent | services/shared/src/agenticos_shared/secrets_box.py:90-93 | encrypting an encrypted tree cannot fail and changes nothing |
| SecretsBox.NothingStaysInClear | services/shared/src/agenticos_shared/secrets_box.py:90-93 | after encryption no non-empty string under a sensitive name is outside an envelope |
| SecretsBox.ShapeIsKept | services/shared/src/agenticos_shared/secrets_box.py:87-97 | encryption keeps names, order, nesting and every value that is not a string |
| SecretsBox.OthersAreKept | services/shared/src/agenticos_shared/secrets_box.py:87-97 | strings of lists, and dict strings that are empty, enveloped or under a name that is not sensitive, are left alone |
| Search.Rrf | services/knowledge_svc/src/knowledge_svc/search.py:43-50 | the fused dict holds each id once, in order of first appearance, with its summed score |
| Search.ListScoreAt | services/knowledge_svc/src/knowledge_svc/search.py:47-49 | in a list without repeats an id scores 1/(k + its rank) |
| Search.DominanceScores | services/knowledge_svc/src/knowledge_svc/search.py:43-50 | for duplicate-free lists, an id ahead of another in every list that holds the other scores strictly higher |
| Search.SortMeans | services/knowledge_svc/src/knowledge_svc/search.py:146 | the sort orders by falling score and loses nothing |
| Search.SortIsStable | services/knowledge_svc/src/knowledge_svc/search.py:146 | entries of equal score keep their order |
| Search.PythonHybrid | services/knowledge_svc/src/knowledge_svc/search.py:112-164 | the hits are, in order, the rows of the top fused ids with their scores |
| Search.KeywordIdsMean | services/knowledge_svc/src/knowledge_svc/search.py:117-128 | the keyword ranking holds exactly the rows with a positive score |
| Search.VectorIdsMean | services/knowledge_svc/src/knowledge_svc/search.py:130-139 | the vector ranking holds exactly the embedded rows of positive similarity, and nothing when the query is not embedded |
| Search.KeywordIdsAreRanked | services/knowledge_svc/src/knowledge_svc/search.py:123-128 | the keyword ranking goes by falling count, and by row order among equals |
| Search.VectorIdsAreRanked | services/knowledge_svc/src/knowledge_svc/search.py:130-139 | the vector ranking goes by falling similarity, and by row order among equals |
| Search.HitsScore | services/knowledge_svc/src/knowledge_svc/search.py:43-50 | over rows with ids of their own a hit scores 1/(60 + rank) for each ranking it is in, added up |
| Search.FirstSeenOrders | services/knowledge_svc/src/knowledge_svc/search.py:46-50 | the dict keeps ids in the order they are first met |
| Search.TiesGoByAppearance | services/knowledge_svc/src/knowledge_svc/search.py:141-146 | of two hits with the same score the one met first in the rankings comes first |
| Search.TopMeans | services/knowledge_svc/src/knowledge_svc/search.py:141-146 | the results are distinct, by falling score, each with its fused score, and min(top_k, fused) many |
| Search.NothingBetterIsLeftOut | services/knowledge_svc/src/knowledge_svc/search.py:146 | nothing left out scores more than a result |
| Search.TopKeepsDominating | services/knowledge_svc/src/knowledge_svc/search.py:43-146 | the top-k never omits an id that dominates one of its own, and ranks it before |
| Search.RankingsAreDistinct | services/knowledge_svc/src/knowledge_svc/search.py:123-139 | rows with ids of their own give rankings without repeats |
| Search.SearchKeepsDominating | services/knowledge_svc/src/knowledge_svc/search.py:123-146 | so a search over such rows never omits a chunk that dominates a hit in its two rankings, and ranks it before |
| Search.KeywordOnlyIsPrefix | services/knowledge_svc/src/knowledge_svc/search.py:123-164 | without a query embedding the results are the keyword ranking cut to top_k |
| Luhn.LuhnOk | services/shared/src/agenticos_shared/redaction.py:52-64 | true exactly when every character is a digit and the weighted digit sum, doubling every second digit from the right, is a multiple of ten |
| Luhn.DigitAdds | services/shared/src/agenticos_shared/redaction.py:57-63 | a digit adds itself in the last place and every second one before it, and in the others its double, less 9 if that has two digits |
| Luhn.ZeroesAddNothing | services/shared/src/agenticos_shared/redaction.py:52-64 | all zeroes add up to 0 and pass |
| Luhn.SingleErrorIsDetected | services/shared/src/agenticos_shared/redaction.py:52-64 | changing any one digit of an accepted number makes it rejected |
| Luhn.OneDigitFits | services/shared/src/agenticos_shared/redaction.py:52-64 | at each position exactly one digit makes the number accepted |
| Luhn.SwapIsDetected | services/shared/src/agenticos_shared/redaction.py:52-64 | swapping unequal neighbours of an accepted number is rejected, except a 0 with a 9 |
| Luhn.ReplaceCard | services/shared/src/agenticos_shared/redaction.py:89-94 | a match is replaced, and counted, exactly when it has 13 to 19 digits that pass |
| Luhn.DigitsOneByOne | services/shared/src/agenticos_shared/redaction.py:89-91 | the digits of a match are its characters that have a digit value, in order |
| Luhn.CardMeans | services/shared/src/agenticos_shared/redaction.py:89-94 | a match is a card number if and only if it has 13 to 19 digits that pass |
| Luhn.MistypedCardIsKept | services/shared/src/agenticos_shared/redaction.py:89-94 | a card number with one digit mistyped, however spaced, is not taken for a card |
| AgentTools.AgentStore.SyncToolBindings | services/api_gateway/src/api_gateway/routes/agents.py:165-186 | the loops make an agent's rows exactly the tools its list names, unless a new row names no tool |
| AgentTools.AgentStore.Commit | services/api_gateway/src/api_gateway/routes/agents.py:325-355 | assign, synchronise and snapshot, or roll everything back |
| AgentTools.AgentStore.CreateAgent | services/api_gateway/src/api_gateway/routes/agents.py:230-296 | effect and answer of creating an agent |
| AgentTools.AgentStore.UpdateAgent | services/api_gateway/src/api_gateway/routes/agents.py:300-370 | effect and answer of updating one; `AgentTools.UpdateMeans` says what the effect is |
| AgentTools.AgentStore.PublishVersion | services/api_gateway/src/api_gateway/routes/agents.py:405-460 | effect and answer of publishing a version |
| AgentTools.AgentStore.BindTool | services/api_gateway/src/api_gateway/routes/agents.py:467-519 | effect and answer of binding a tool |
| AgentTools.AgentStore.UnbindTool | services/api_gateway/src/api_gateway/routes/agents.py:526-569 | effect and answer of unbinding one |
| AgentTools.AgentStore.RemoveAgent | services/api_gateway/src/api_gateway/routes/agents.py:377-398 | effect and answer of deleting an agent, with its rows and snapshots |
| AgentTools.AgentStore.RemoveTool | services/api_gateway/src/api_gateway/routes/tools.py:122-140 | effect of deleting a tool, and the agents whose lists were pruned |
| AgentTools.AgentStore.PruneLists | services/api_gateway/src/api_gateway/routes/tools.py:134-140 | the loop prunes the lists of the workspace's agents and no others |
| AgentTools.CreateMeans | services/api_gateway/src/api_gateway/routes/agents.py:230-296 | a new agent has version 1 and the profile and list given, with the rows of that list and a first snapshot, unless its slug is taken in the workspace or its list names a tool that does not exist |
| AgentTools.UpdateMeans | services/api_gateway/src/api_gateway/routes/agents.py:300-370 | an accepted update sets the list and the profile given, keeps those not given, raises the version and adds a snapshot; the rows become the tools of the list when the key is present; it fails if and only if the key is present and the list names a tool that does not exist; no other agent or row changes |
| AgentTools.PublishMeans | services/api_gateway/src/api_gateway/routes/agents.py:405-460 | publishing raises the version and adds a snapshot with at most 4096 characters of notes, and keeps list, profile and rows |
| AgentTools.BindMeans | services/api_gateway/src/api_gateway/routes/agents.py:467-519 | binding adds the printed id at the end of the list unless it is there, and the rows become those of the list, unless the list names a tool that does not exist |
| AgentTools.UnbindMeans | services/api_gateway/src/api_gateway/routes/agents.py:526-569 | unbinding takes every printed id of the tool out of the list, and the rows become those of the list; it fails if the id is not there |
| AgentTools.DropOneByOne | services/api_gateway/src/api_gateway/routes/agents.py:541-553 | the other texts of the list stay, in order |
| AgentTools.RefusedMeans | services/api_gateway/src/api_gateway/routes/agents.py:230-569 | requests for an agent outside the workspace, and those refused beforehand, change nothing |
| AgentTools.DeleteAgentMeans | services/api_gateway/src/api_gateway/routes/agents.py:377-398 | deleting an agent takes its rows and snapshots along, and nothing else |
| AgentTools.DeleteToolMeans | services/api_gateway/src/api_gateway/routes/tools.py:122-140 | deleting a tool takes its rows out everywhere and its printed id out of the lists of one workspace, and nothing else |
| AgentTools.ParsedMeans | services/api_gateway/src/api_gateway/routes/agents.py:165-175 | a list names the tools its texts parse to |
| AgentTools.ApplyKeepsSane | services/api_gateway/src/api_gateway/routes/agents.py:262-281 | every request keeps: each agent's snapshots carry versions 1 to its version once each in order, no dangling row, no slug twice in a workspace |
| AgentTools.AlwaysSane | services/api_gateway/src/api_gateway/routes/agents.py:230-569 | so do all runs of requests |
| AgentTools.EarlierSnapshotsStay | services/api_gateway/src/api_gateway/routes/agents.py:341-355 | a request only adds to the snapshots of an agent it does not delete |
| AgentTools.SnapshotsStay | services/api_gateway/src/api_gateway/routes/agents.py:230-569 | over all runs, later requests that do not delete the agent leave its snapshots as they are |
| AgentTools.SnapshotsKept | services/api_gateway/src/api_gateway/routes/tools.py:134-140 | the newest snapshot shows the agent as it is after every request, except exactly when deleting a tool edits a list of the workspace |
| AgentTools.DropParsed | services/api_gateway/src/api_gateway/routes/agents.py:541-553 | removing the printed id from a list removes the tool exactly when no other text of the list names it |
| AgentTools.DeleteToolMirrors | services/api_gateway/src/api_gateway/routes/tools.py:130-140 | deleting a tool keeps the join table equal to the lists if and only if every agent that names the tool is in the deleting workspace and names it in printed form only |
| AgentTools.MirrorKept | services/api_gateway/src/api_gateway/routes/agents.py:165-186 | every request but that keeps the join table equal to the lists |
| AgentTools.MirrorsThroughoutIff | services/api_gateway/src/api_gateway/routes/agents.py:165-569 | the join table is what the lists say all through a run if and only if every deletion of a tool reaches every agent that names it |
| AgentTools.CarefulRunsMirror | services/api_gateway/src/api_gateway/routes/agents.py:165-569 | in particular after every run with canonical ids of own or global tools, each tool deleted from its own workspace |
| AgentTools.BindFailsIff | services/api_gateway/src/api_gateway/routes/agents.py:483-505 | binding a tool to an agent of the workspace fails, and changes nothing, if and only if the tool does not exist or the agent's list already names one that does not |
| AgentTools.StaleIdBlocksBinding | services/api_gateway/src/api_gateway/routes/agents.py:487-503 | so once a list names a tool that is gone, no tool can be bound to the agent |
| AgentTools.ForeignDeletionBreaksMirror | services/api_gateway/src/api_gateway/routes/tools.py:130-140 | a run of three requests after which the join table and a list differ, and the agent can bind no tool |
| AgentTools.DeletionLeavesSnapshotBehind | services/api_gateway/src/api_gateway/routes/tools.py:134-140 | a run after which the newest snapshot is not the agent, though it was just before the deletion |
| Transcript.GatherTranscript | services/worker/src/worker/jobs/summarize_session.py:40-53 | the transcript is the whole join if it fits; else its first limit characters, and one more exactly when a line ends at the limit; nothing for a negative limit |
| Transcript.MessageByMessage | services/worker/src/worker/jobs/summarize_session.py:40-53 | the whole join: for each message with content a line of its role in capitals, a colon, a blank and its stripped content, with one newline between lines |
| Transcript.CutMeans | services/worker/src/worker/jobs/summarize_session.py:47-53 | it is a prefix of the whole, at most one character over, and then ends with the newline after a complete line |
| Transcript.LimitIsExceeded | services/worker/src/worker/jobs/summarize_session.py:46-53 | it does go over: for any two messages with content, at the length of the first line |
| ShortTerm.ShortTermStore.Append | services/memory_svc/src/memory_svc/short_term.py:34-58 | an append adds the item to the history its list is a function of, and gives the new length; a failure changes nothing |
| ShortTerm.ShortTermStore.Get | services/memory_svc/src/memory_svc/short_term.py:60-79 | the items that decode among the last `limit` |
| ShortTerm.ShortTermStore.Clear | services/memory_svc/src/memory_svc/short_term.py:81-87 | clearing forgets the list and its history |
| ShortTerm.PushingAppends | services/memory_svc/src/memory_svc/short_term.py:47-51 | an append comes last in the history of its own list and leaves every other alone |
| ShortTerm.DecodedOneByOne | services/memory_svc/src/memory_svc/short_term.py:71-79 | items that do not decode are passed over, the others kept in order |
| ShortTerm.BufferIsSuffix | services/memory_svc/src/memory_svc/short_term.py:49-51 | with positive caps the list is the end of everything appended, of length min(n, min over j of cap_j + n - j) |
| ShortTerm.OneCap | services/memory_svc/src/memory_svc/short_term.py:49-51 | with one cap it is the last cap items |
| ShortTerm.ReadIsLastItems | services/memory_svc/src/memory_svc/short_term.py:67 | a read gives the last min(limit, length) texts |
| ShortTerm.LastItemsComeBack | services/memory_svc/src/memory_svc/short_term.py:47-79 | after any appends with positive caps, a read with a positive limit gives back the last items appended, as many as the list and the limit allow, in order |
| ShortTerm.RangeMeans | services/memory_svc/src/memory_svc/short_term.py:51-67 | a range from -k to the end is the last k items, all of them for k = 0, and all but the first -k for negative k |
| ShortTerm.ZeroCapKeepsAll | services/memory_svc/src/memory_svc/short_term.py:51 | a cap of 0 trims nothing |
| ShortTerm.LimitIsKept | services/memory_svc/src/memory_svc/short_term.py:51-67 | a range meant for the last k items holds at most k if and only if k is positive or the list is too short to tell |

## Left out

- Concurrent audit emitters: `FOR UPDATE SKIP LOCKED` can select an older row, so only sequential emits are modelled.
- ReactTheorems.EveryTurn: exceptions from the tool, search, listing and policy proxies, and call arguments that are neither objects nor text, leave the turn; such turns are modelled as cut short, and nothing is claimed of events after that point.
- The tool payload, sampling options, telemetry and NATS publishing of a turn, and the `iteration` field of its error events.
- Persistence.SavesAgree: the `meta` column of the saved rows, which the two routes fill differently, is not compared; nor are row ids and timestamps.
- ChatSocket.AlwaysInv: a frame is logged when it is handed to the socket, whether or not the client gets it; the handshake before the receive loop is not modelled.
- Audit payloads whose dict keys are not text; a number in a payload is the text it prints as, so that 1 and 1.0 are different numbers.
- Sse.StreamRoundTrip: payloads that contain a line break of any kind are outside it; the serialiser of the source escapes them.
- Quota.QuotaService.CheckAndReserveRequest: a request reads one clock once, Redis and the services share it, and Redis answers; the branch where the peek at the token counter fails and counts as 0 is not modelled.
- Quota.RateLimiter.Dispatch: how a principal's identity is found, and the response headers other than the remaining count.
- Quota.OvershootIsBounded: a request that fails before reporting its tokens is a charge of 0.
- SecretsBox.EncryptSensitiveFields: the strength of the cipher and of the nonces is not modelled; nonces come from a parameter.
- Base64.Decode: the lenient decoder is the one of the Python runtime, written out from its documented behaviour.
- Search.PythonHybrid: cosine similarity and keyword counting are parameters, floats are exact rationals, and the PostgreSQL query that replaces it there is not part of this model.
- Luhn.LuhnOk: a character either has a decimal value or is rejected; digits that have no decimal value, on which the source raises, do not reach it from its caller.
- The other patterns of the redactor.
- AgentTools.AgentStore.RemoveTool: the tool service's transaction and the gateway's are one step here, and concurrent requests are not modelled.
- AgentTools.AgentStore.UpdateAgent: the fields that play no part in versions or bindings are one value; checks made before anything is written are one parameter.
- ShortTerm.ShortTermStore.Append: the expiry of a whole list is not modelled.
- Chunker.ChunkTextLoop: the tokenizer is any pair of functions; that it decodes what it encodes is neither needed nor claimed.
- Model registry, policy bundles, ingestion status, role tables, egress rules, the web client and the TypeScript SDK.
