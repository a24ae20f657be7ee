# Verified model of the chatbot backend and its widget stream

A Dafny 4.11 model of the stateful parts of a multi-tenant retrieval chatbot: the streamed answer
path from the model's raw deltas to the visitor's screen and the transcript, the Redis token bucket,
the shared provider-client cache, monthly usage caps, the extraction lock and the deduplicating note
store behind it, ticket pins and the retention sweeps, document ingestion, refresh-token revocation,
the prompt budget, and the rule that an organisation keeps an owner.

Code that works by changing things in place is a class or a loop (`ReasoningFilter`,
`StreamConsumer`, `ChatTurn`, `WidgetChat`, `RateLimiter`, `ClientCache`, `UsageStore`,
`DocumentService`, `RedisLocks`, `MemoryTable`, `RetentionSweeps`, `Pipeline`, `TokenService`,
`TeamService`), proved against functions on values. The main theorems are about those functions:
about every text and every way of cutting it, and about every run of steps from the empty state.

Run `dafny verify dfyconfig.toml` to check the whole project.

| file | what it models |
|---|---|
| `text.dfy`, `arithmetic.dfy` | the string and number operations of the host languages |
| `reasoning_filter.dfy` | removing `<think>` spans from a stream cut anywhere |
| `sse.dfy` | printing server-sent events and reading them back over any network chunks |
| `prompts.dfy` | citations and the context budget |
| `chat_turn.dfy` | one turn from end to end, with every failure and the visitor leaving at any event |
| `token_bucket.dfy` | the Lua token bucket with its TTL |
| `client_cache.dfy`, `client_history.dfy` | the LRU, TTL and owner-indexed client cache; what its calls return over whole runs |
| `usage.dfy`, `uploads.dfy` | the guarded atomic upsert, and the upload that asks it twice |
| `held_lock.dfy` | the TTL lock with compare-and-delete release |
| `extraction.dfy`, `extraction_runs.dfy`, `erasure.dfy` | the note store; overlapping extractions, overruns, failures and deletes around it; an erasure that meets an extraction under way |
| `retention.dfy`, `retention_rows.dfy`, `sweeps.dfy` | conversations, tickets and notes; pins; what each transaction leaves in the rows; the batched sweeps |
| `ingestion.dfy`, `ingestion_runs.dfy`, `old_lock.dfy` | chunking; overlapping ingestion attempts; a run in which a replica shows an old lock |
| `sessions.dfy`, `session_runs.dfy` | refresh tokens and the expiring deny-list; chains of renewals |
| `team.dfy` | members, invitations, owners |

Where a promise of the code turns out not to hold, the model keeps the code as it is, shows a
concrete input, and proves when the promise does hold:

- A client is lost from the cache exactly when a rebuild of an expired entry fails or the closing of
  victims is cut short (`ClientCaches.LostExactlyWhen`, `ClientCaches.FailedRebuildLosesClient`,
  `ClientCaches.CancelledCloseLosesClient`).
- A charge that does not fit a 32-bit counter counts as an outage and is let through uncounted
  unless the deployment fails closed (`UsageCaps.ConsumeRefinesCounter`,
  `UsageCaps.CountersCanOverflow`).
- A lock holder that overruns its lease can store the same note twice
  (`ExtractionRuns.OverrunDuplicates`).
- Erasing a transcript leaves a note behind exactly when an extraction commits one between the two
  statements of the erasure (`Erasures.ErasureIsCompleteExactlyWhen`,
  `Erasures.UncommittedNoteSurvives`).
- The context is the budgeted prefix of the passages exactly when no empty passage stops it early
  (`Prompts.ContextIsBudgetPrefix`, `Prompts.EmptyPassageHidesRest`); a negative budget cuts from
  the end (`Prompts.NegativeBudget`).
- Vectors of two widths can be stored, by overwriting a recorded width that is in use or by trusting
  one that no longer stands, and in no other way (`IngestionRuns.StepWidth`,
  `IngestionRuns.DivergingCanMix`, `IngestionRuns.TwoFirstsMixWidths`, `OldLocks.OldLockMixesWidths`).
- A signed-out token can be renewed again in its last second (`Sessions.EntryLapsesEarly`,
  `Sessions.SignedOutThenRenewed`).
- Two owners can suspend each other when both requests were authenticated first
  (`Teams.LosesOwnerExactlyWhen`, `Teams.MutualSuspension`).

Two places where the code and its documentation disagree; the model follows the code. The
repository's README.md (lines 755-760) and the comment at app/services/document.py:174-177 say an
upload that started under the cap may carry it past, while the predicate at
app/services/usage.py:111-112 refuses any charge past the cap (`Uploads.UploadsStayUnderCap`). The
note at app/services/usage.py:8-10 says a chatbot without a cap is not counted, while `consume`
charges it all the same (`UsageCaps.ConsumeRefinesCounter`).

## Model

| member | source | states |
|---|---|---|
| ReasoningFilters.ReasoningFilter.Feed | app/services/ai/base.py:87-112 | one delta moves the filter exactly as the recursive reading of buffer and delta does: what becomes visible, what is held back, whether a span is open |
| ReasoningFilters.ReasoningFilter.Flush | app/services/ai/base.py:114-122 | at the end a held-back beginning of `<think>` turns out to be text, and anything inside a span is dropped |
| ReasoningFilters.PartialTagSuffix | app/services/ai/base.py:125-135 | the loop finds the longest tail of the text that is a proper prefix of the tag |
| ReasoningFilters.ScanAppend | app/services/ai/base.py:87-112 | reading on from where a prefix left the filter gives the same output and state as reading everything at once, wherever the cut falls |
| ReasoningFilters.FeedAllIsScan | app/services/ai/base.py:87-112 | after any list of deltas the filter is where the whole text at once would leave it |
| ReasoningFilters.FilterIsStrip | app/services/ai/base.py:75-122 | for every text and every cut, the visible pieces and the flush concatenate to the one-shot removal of all spans |
| ReasoningFilters.CutsAgree | app/services/ai/base.py:75-112 | two ways of cutting the same text agree on output, buffer and mode |
| ReasoningFilters.HoldsBackAtMostSix | app/services/ai/base.py:75-112 | after every delta the buffer is a proper prefix of the awaited tag, and visible text trails what is due by at most six characters |
| ReasoningFilters.SpanRemoved | app/services/ai/base.py:75-81 | removing spans means that a closed span disappears and reading resumes after it |
| ReasoningFilters.UnclosedSpanDropped | app/services/ai/base.py:114-122 | a span never closed takes the rest of the text with it |
| ReasoningFilters.NoTagShownWhole | app/services/ai/base.py:75-135 | a text without `<think>` is shown whole however it is cut, a closing `<` that might have begun a tag included |
| ReasoningFilters.StreamVisible | app/services/ai/base.py:186-197 | the wrapper yields exactly the non-empty pieces, and skips the flush when the provider fails |
| ReasoningFilters.VisibleDeltasMeaning | app/services/ai/base.py:186-197 | no delta is empty; a complete stream shows the stripped text; a failed one shows a prefix of it short by at most six characters |
| ReasoningFilters.DeltasNeverOverstate | app/services/ai/base.py:186-197 | a stream cut short has released only the beginning of what the whole would have released |
| ServerSentEvents.ReadFrame | frontend/apps/widget/src/widget.js:892-902 | of a frame's lines the last event line names the event, the data lines are joined without a break, and every value is trimmed |
| ServerSentEvents.LastEventWins | frontend/apps/widget/src/widget.js:892-902 | the last line that names an event wins, and a frame without one is a "message" |
| ServerSentEvents.DataLinesJoin | frontend/apps/widget/src/widget.js:892-902 | the data of a frame is its data lines, each trimmed, in order and without a break; other lines add nothing |
| ServerSentEvents.HandledWhen | frontend/apps/widget/src/widget.js:903-911 | a frame calls the handler exactly when its data is not empty and parses, once, and never spoils the frames before or after it |
| ServerSentEvents.StreamConsumer.Pump | frontend/apps/widget/src/widget.js:884-911 | one network chunk handles every frame it completes, in order, and keeps the unfinished rest |
| ServerSentEvents.FramesAppend | frontend/apps/widget/src/widget.js:884-911 | frames of a text do not depend on where it is cut, even through a blank line |
| ServerSentEvents.ConsumeStream | frontend/apps/widget/src/widget.js:879-912 | on arbitrary text and chunks the handler sees the frames of the concatenation, and the unfinished rest is dropped |
| ServerSentEvents.FramesOfWire | app/api/public/chat.py:37-38 | printed events split into one frame each with nothing left over |
| ServerSentEvents.WireRoundTrip | app/api/public/chat.py:37-38 | for every list of events and every chunking of the printed text, the handler is called with exactly that list and the buffer ends empty |
| Prompts.RenderContext | app/services/ai/prompts.py:90-113 | the text is, from its first character to its last, the blocks of the budget in order with a blank line between: each its `[marker]`, its descriptor in brackets if there is one, a line break and its body; without passages it is the fixed sentence |
| Prompts.DecimalReads | app/services/ai/prompts.py:107 | a marker is written as digits that read back as its number, without a leading zero |
| Prompts.DescriptorLists | app/services/ai/prompts.py:104-106 | the descriptor is `key=value` for every key with a value, in order, between commas, and nothing for a key without one |
| Prompts.BuildCitations | app/services/ai/prompts.py:76-87 | citation k names passage k under marker k, with its metadata and its first 300 characters |
| Prompts.BodiesOfBlocks | app/services/ai/prompts.py:90-113 | the rendered bodies concatenate to the budgeted prefix of the passages before the first empty one |
| Prompts.ContextIsBudgetPrefix | app/services/ai/prompts.py:90-113 | the bodies are a prefix of all passages within the budget, and exactly the first min(budget, total) characters if and only if the budget runs out before an empty passage or nothing non-empty follows it |
| Prompts.EmptyPassageHidesRest | app/services/ai/prompts.py:96-101 | an empty passage in front hides the one behind it although the budget has room |
| Prompts.ContextOfStoredPassages | app/services/ai/prompts.py:90-113 | with passages as ingestion stores them, never empty, the context is exactly the budgeted prefix |
| Prompts.NegativeBudget | app/services/ai/prompts.py:95-101 | a negative budget keeps the first passage without its last characters |
| Prompts.BlockIsPassage | app/services/ai/prompts.py:96-111 | block k is passage k under marker k, whole unless it is the last |
| Prompts.BlockMatchesCitation | app/services/ai/prompts.py:76-113 | block k and citation k carry the same marker, passage and descriptor, and one text begins the other |
| ChatTurns.ChatTurn.StreamAnswer | app/services/rag.py:289-402 | with failures anywhere and the visitor leaving at any event, the wire, the transcript, the stamps of recalled notes and the extraction queue end up as the reference says |
| ChatTurns.ChatTurn.CappedTurn | app/services/rag.py:244-286 | a turn past the cap sends the operator's wording as one token and writes both messages |
| ChatTurns.ChatTurn.Persist | app/services/rag.py:167-221 | the turn is written as two messages, counted, and titles an untitled conversation; the recalled notes that had gone stale are stamped; the caller learns whether a ticket names the conversation |
| ChatTurns.MemoryOfTurn | app/services/rag.py:206-221 | a note is stamped if and only if the turn was written within the cap, recalled it and found it stale; extraction is queued if and only if the turn goes through within the cap, the visitor stays for everything before `done`, memory is on and the visitor can be found again |
| ChatTurns.TitleIsFirstQuestion | app/services/rag.py:204-207 | the first question written to a thread becomes its title, at most 300 characters of it, and no later one changes it |
| ChatTurns.DoneMeansKept | app/services/rag.py:365-402 | `done` is sent if and only if everything goes right and the visitor stays; then the turn is written and the wire is the citations, the tokens, and one `done` with both ids that offers a person exactly when nothing was retrieved or looked for |
| ChatTurns.KeptWhen | app/services/rag.py:289-402 | the turn is written exactly when it goes through and the visitor is there for everything before `done`; otherwise nothing changes, except that a turn which got as far as opening the conversation leaves an empty one; the message count stays the number of messages |
| ChatTurns.WidgetChat.OnEvent | frontend/apps/widget/src/widget.js:949-967 | the handler accumulates tokens into the answer, keeps the sources, notes the offer of a person and reports errors |
| ChatTurns.TokensArePrefix | app/services/rag.py:344-347 | whatever reaches the wire of a turn, its tokens are the first of the deltas, and all of them once `done` is there |
| ChatTurns.SeenIsDelivered | frontend/apps/widget/src/widget.js:949-967 | over any chunking of the whole wire the widget handles exactly the events that were sent |
| ChatTurns.SeenIsPrefix | frontend/apps/widget/src/widget.js:879-912 | wherever the connection is cut, inside a frame included, the widget has handled the first of the events and nothing else |
| ChatTurns.VisitorSeesWhatIsKept | app/services/rag.py:344-402 | however model and network split it, a turn that ends with `done` shows the stripped model text, and the transcript holds that text trimmed of white space and not empty, with the citations of what was retrieved |
| ChatTurns.VisitorSeesOutcome | frontend/apps/widget/src/widget.js:949-977 | over any network the visitor sees the citations unless setup failed or they had left; is offered a person exactly when `done` arrives and nothing was retrieved or looked for; and sees one error, worded by the first stage that failed, exactly when one did and they were still there |
| ChatTurns.NeverOverstates | app/services/rag.py:289-402 | a turn that stops anywhere, at the model, at the visitor or on the network, shows only a beginning of what the complete stream would have shown |
| TokenBuckets.RateLimiter.Consume | app/services/rate_limit.py:14-48 | the script decides on what the server still finds, stores the bucket its verdict implies, renews the expiry of that key, and leaves other keys alone |
| TokenBuckets.RateLimiter.Expire | app/services/rate_limit.py:45 | forgetting a key whose time has passed changes nothing any later call finds |
| TokenBuckets.TokensInRange | app/services/rate_limit.py:24-36 | tokens stay between nothing and the capacity over every run |
| TokenBuckets.CallSplitsLevel | app/services/rate_limit.py:30-47 | a call moves tokens from the bucket to the caller and loses none |
| TokenBuckets.WindowBound | app/services/rate_limit.py:14-48 | between any two calls at most capacity plus the refill of the time between them is let through |
| TokenBuckets.RefusedExactlyWhen | app/services/rate_limit.py:14-48 | for ordered calls to a fresh key: a call is refused if and only if, counted from some call up to it, what was admitted plus its cost exceeds capacity plus the refill of that time; so nothing is refused that some window does not forbid |
| TokenBuckets.RetryHintIsExact | app/services/rate_limit.py:36-45 | left alone, a refused request succeeds after w whole seconds if and only if its cost fits the bucket and w is at least the hint |
| TokenBuckets.FullAtTtl | app/services/rate_limit.py:70-74 | an idle bucket is full again by the time its key expires |
| TokenBuckets.TtlIsFillTime | app/services/rate_limit.py:67-69 | a key is kept a minute longer than the whole seconds an empty bucket takes to fill |
| TokenBuckets.TtlIsUnobservable | app/services/rate_limit.py:64-84 | dropping idle keys at their TTL, at any of the allowed moments, changes no verdict of any run |
| ClientCaches.ClientCache.TakeClient | app/services/ai/clients.py:67-97 | lookup, rebuild, insertion and overflow in place match the cache on values, a failing build included |
| ClientCaches.ClientCache.Invalidate | app/services/ai/clients.py:107-118 | one owner's entries leave together and their clients become the victims, in order |
| ClientCaches.ClientCache.CloseAll | app/services/ai/clients.py:121-125 | everything resident becomes a victim and the cache is empty |
| ClientCaches.ClientCache.EvictOverflow | app/services/ai/clients.py:93-95 | the overflow loop removes from the old end until the cache fits |
| ClientCaches.TakeConserves | app/services/ai/clients.py:67-97 | what was resident or just built is afterwards resident, a victim, or dropped; keys stay unique and capacity holds |
| ClientCaches.RunKeepsInv | app/services/ai/clients.py:67-134 | over every run, with closes at any later point, capacity, unique keys and conservation of clients hold |
| ClientCaches.EachClientOnce | app/services/ai/clients.py:67-134 | each client ever built is in exactly one place: resident, awaiting close, closed once, or lost; closes may be cut short |
| ClientCaches.LostExactlyWhen | app/services/ai/clients.py:75-134 | over every run, clients are lost if and only if some rebuild of an expired entry failed or some closing of victims was cut short |
| ClientCaches.FailedRebuildLosesClient | app/services/ai/clients.py:75-89 | a run of two calls that loses a client |
| ClientCaches.CancelledCloseLosesClient | app/services/ai/clients.py:132-134 | a run of three steps that loses a client to a cancelled close |
| ClientCaches.AcquiredIsLive | app/services/ai/clients.py:67-97 | at the end of `_take` the client about to be returned is resident, unexpired, used by the caller, and among no victims or closed clients |
| ClientCaches.ReturnedIsResident | app/services/ai/clients.py:100-104 | whatever runs while `acquire` closes the victims, the client it returns is still resident, neither closed nor about to be, if and only if no invalidation of an owner of it, shutdown, expiry or overflow took its entry out meanwhile |
| ClientCaches.InvalidateIsExact | app/services/ai/clients.py:107-118 | afterwards no entry lists the owner, every other entry remains, and exactly the removed clients wait to be closed |
| ClientHistory.OwnersRemember | app/services/ai/clients.py:67-97 | over every run, a resident client lists every chatbot it was ever handed to |
| ClientHistory.InvalidatedIsGone | app/services/ai/clients.py:107-118 | in every run that ends by invalidating a chatbot, no client that any earlier call returned for that chatbot is resident, shared with others or not |
| ClientHistory.OthersKeepTheirs | app/services/ai/clients.py:107-118 | and a resident client never returned for that chatbot stays |
| ClientHistory.HandedWasBuiltForKey | app/services/ai/clients.py:67-97 | over every run, a client is returned only for the key it was built for, by that call or within an hour after it |
| ClientHistory.ResidentIsReused | app/services/ai/clients.py:82-92 | and while its hour lasts and it is resident, every call for its key returns it |
| ClientCaches.OrderIsLastUse | app/services/ai/clients.py:52-118 | the order of entries is the order of last acquisition in every reachable state |
| ClientCaches.EvictsLeastRecent | app/services/ai/clients.py:93-97 | an acquire that overflows a full cache evicts exactly the entry least recently acquired |
| UsageCaps.UnitsAreLeast | app/services/usage.py:64-70 | the charge is the least number of units covering the bytes, at least one for a non-empty file |
| UsageCaps.UsageStore.Consume | app/services/usage.py:123-161 | guard, statement and failure policy change the table and answer as the value model says |
| UsageCaps.UsageStore.Headroom | app/services/usage.py:164-212 | without a cap there is always headroom; with one, exactly when the figure shown is below it, or the read fails and the deployment fails open; nothing is charged |
| UsageCaps.ConsumeRefinesCounter | app/services/usage.py:98-161 | whenever the statement can be carried out, guard and upsert allow exactly if there is no cap or used plus amount is within it, and add the amount to that one counter only; otherwise the failure policy decides and nothing is counted |
| UsageCaps.OverflowIsLetThrough | app/services/usage.py:123-161 | where the deployment fails open, any charge that would overflow its column is allowed, reported as an outage, and not counted |
| UsageCaps.CountersCanOverflow | app/services/usage.py:123-161 | a table in which one more call does that |
| UsageCaps.HeadroomIsOneUnit | app/services/usage.py:164-183 | headroom is whether one more unit would be allowed when the figures shown are current; figures that lag only let more start |
| UsageCaps.LaggingHeadroomIsGenerous | app/services/usage.py:164-212 | shown any earlier state of a run, headroom never turns away what would fit |
| UsageCaps.HeadroomIsNotAdmission | app/services/document.py:139-185 | for every table, every table shown and every charge, there is headroom and yet the real cost is refused if and only if the figure shown is below the cap and the cost takes the figure charged past it, or the charge cannot be carried out and the deployment fails closed |
| UsageCaps.CounterIsSum | app/services/usage.py:98-161 | under every interleaving each counter is the sum of the counted charges for its chatbot, month and kind |
| UsageCaps.CapIsNeverPassed | app/services/usage.py:107-112 | if every charge of a counter carries one cap, the counter never passes it |
| UsageCaps.CountersFit | app/services/usage.py:98-113 | counters fit their column in every reachable state |
| Uploads.Meter | app/services/document.py:98-120 | for every read size the setting allows, the outcome is the verdict on the file with the magic number looked for in the first read alone, and no byte past the limit is forwarded |
| Uploads.JudgedComplete | app/services/document.py:98-120 | a complete file is not empty, within the limit and begins with its magic number; every such file is complete when a read holds the magic number |
| Uploads.DocumentService.UploadDocument | app/services/document.py:123-213 | accepted if and only if there is headroom on the figure shown, storage and row succeed, the file is acceptable, and its cost fits the counter or cannot be carried out where the deployment fails open; refused if and only if headroom, file or cost fails in turn; the counter moves by exactly the units of an upload that is charged; a refusal leaves no object, row or charge, an acceptance the object, the row and one charge, a row that cannot be written object and charge, a failing storage at most a beginning of the object |
| Uploads.AloneMeans | app/services/document.py:139-204 | the three steps, said by headroom, acceptability and fit alone: which outcome, and what the counters become |
| Uploads.AloneIsThreeSteps | app/services/document.py:139-204 | the upload method is its three steps (first check, transfer and charge, row) with nothing in between |
| Uploads.IngestionCounterIsUploads | app/services/document.py:139-204 | under every interleaving the ingestion counter is the units of the accepted uploads, of those charged whose row then failed, of those charged and not yet written, and of other charges |
| Uploads.UploadsStayUnderCap | app/services/document.py:172-185 | under one cap no interleaving accepts, wastes or holds more units than the cap, whatever the first check let start |
| Uploads.TurnedAwayExactlyWhen | app/services/document.py:155-185 | an upload the first check cleared is refused if and only if the file is unacceptable, its cost does not fit what the counter says by then, or the charge cannot be carried out and the deployment fails closed |
| HeldLocks.RedisLocks.SetNx | app/services/redis_client.py:60-64 | the key is taken only if nobody's lease is running |
| HeldLocks.RedisLocks.ReleaseIfHeld | app/services/redis_client.py:46-69 | the key goes only if it still holds the caller's token |
| HeldLocks.AtMostOneLeased | app/services/redis_client.py:43-69 | in every reachable state at most one holder is within its lease, and the stored token is the latest acquirer's |
| HeldLocks.EntersExactlyWhen | app/services/redis_client.py:54-69 | in every reachable state a run is let in if and only if nobody is within a lease, then for exactly the time it asked for, and others keep their leases |
| HeldLocks.LeavingIsSafe | app/services/redis_client.py:46-69 | a holder that overran removes nothing and disturbs nobody's lease; one within its lease frees the lock |
| HeldLocks.PlainDeleteBreaksExclusion | app/services/redis_client.py:43-52 | without the comparison two holders would be within their leases at once |
| Extraction.MemoryTable.Nearest | app/repositories/memory_entry.py:40-76 | the returned note has the width asked for and none is more similar |
| Extraction.MemoryTable.Store | app/services/nuvrag_mem/extraction.py:323-391 | apart from stamps the notes are those the candidates leave one by one; distinctness and the ceiling are kept; every candidate handled is stored or has a note at least that similar; written plus duplicates is proposed unless the ceiling stopped it |
| Extraction.MemoryTable.StoreOne | app/services/nuvrag_mem/extraction.py:352-385 | a candidate is a duplicate exactly when a known note is similar enough, and then only the nearest note is stamped; otherwise it becomes one new row |
| Extraction.AddingUnknown | app/services/nuvrag_mem/extraction.py:355-372 | a note nobody is similar to can be added without spoiling distinctness |
| ExtractionRuns.TransactionAloneIsStore | app/services/nuvrag_mem/extraction.py:344-391 | the steps of one transaction with nothing in between leave the notes `Store` leaves, stamps aside |
| ExtractionRuns.StepKeepsInv | app/services/nuvrag_mem/extraction.py:119-141 | every step of overlapping extractions, lock expiries, failures, deletes and erasures keeps the protocol's invariant as long as no holder writes past its lease |
| ExtractionRuns.NotesStayDistinct | app/services/nuvrag_mem/extraction.py:119-141 | over every run of holders within their lease, a visitor's notes of one width stay pairwise below the duplicate threshold and within the ceiling |
| ExtractionRuns.OverrunDuplicates | app/services/nuvrag_mem/extraction.py:119-137 | a holder past its lease can store the same note a second time |
| Retention.RunKeepsGood | app/services/ticket.py:59-269 | over every run the subject index, foreign keys, message counts and resolution stamps stay right |
| Retention.SweepsRespectPins | app/repositories/conversation.py:44-76 | a sweep leaves every conversation with an open or pending ticket, its messages and tickets, and every note of that subject |
| Retention.PinHoldsOverRuns | app/repositories/memory_entry.py:177-217 | until the ticket is settled or an erasure is asked for, no interleaving of turns, tickets, replies, sweeps and other deletes removes what it pins |
| Retention.DeletionForgets | app/services/conversation.py:27-51 | taken as one step, an explicit delete leaves no conversation, message, ticket or note of its subject, and touches nobody else's notes |
| Retention.ErasureIsFinal | app/services/conversation.py:27-51 | after such a step no run brings a note back unless the visitor opens a conversation again |
| RetentionRows.TurnRows | app/services/rag.py:167-221 | a turn adds two messages to the visitor's conversation, opening one if there is none, and stamps it; of the notes it used those more than an hour stale are stamped; nothing else changes |
| RetentionRows.TicketRows | app/services/ticket.py:59-119 | a ticket is one new row, open and unassigned, on the visitor's conversation, with the opening message if there is one |
| RetentionRows.UpdateRows | app/services/ticket.py:187-218 | one ticket changes: assignee and status as told, pending when an open one is assigned without a status; the resolution stamp is the time of the call that resolves it and goes with the status |
| RetentionRows.ReplyRows | app/services/ticket.py:228-269 | a reply is one more message; an open ticket becomes pending, an unassigned one the writer's, a settled one stays settled |
| RetentionRows.DeleteRows | app/services/conversation.py:27-51 | through another chatbot nothing happens; otherwise the conversation, its messages and tickets and every note about its author go, and everything else stays |
| RetentionRows.ForgetRows | app/services/nuvrag_mem/erasure.py:29-36 | every note about that visitor goes and nothing else |
| RetentionRows.NewTicketHolds | app/services/ticket.py:59-119 | from the moment a ticket is opened, over every run that neither settles it nor erases its visitor, the conversation, what was said in it and the notes about the visitor stay |
| RetentionRows.SpokenInSurvives | app/repositories/conversation.py:44-76 | over every run, a conversation is not swept by a cutoff before its last turn, ticket or not |
| Erasures.ErasedNotesReturnExactlyWhen | app/services/conversation.py:36-51 | after any run, with anything between the two statements of the erasure and anything but a new conversation after it, a note is there if and only if an extraction committed it between the statements and nothing removed it since |
| Erasures.ErasureIsCompleteExactlyWhen | app/services/conversation.py:36-51 | the erasure leaves no note if and only if none slips in that way; without another removal in between, if and only if no extraction commits a note there |
| Erasures.UncommittedNoteSurvives | app/services/nuvrag_mem/extraction.py:323-391 | a run, every lease kept, in which a note inserted and not yet committed outlives the erasure |
| Sweeps.OldestFirst | app/repositories/conversation.py:44-64 | the query returns the oldest of the expired, at most the limit |
| Sweeps.OldestThenOldest | app/services/conversation.py:111-135 | the oldest of what is left after the oldest of everything is the oldest of everything |
| Sweeps.OldestIsUnique | app/repositories/conversation.py:61-62 | with no two stamps alike there is one answer |
| Sweeps.RemoveInBatches | app/services/conversation.py:122-129 | deleting in two batches is deleting their union, and what is still expired is what was, less the first batch |
| Sweeps.RetentionSweeps.PurgeConversations | app/services/conversation.py:111-143 | only idle conversations go (this chatbot's, updated before the cutoff, without an open or pending ticket), with their messages and tickets, oldest first and at most size times batches; every other one stays unchanged with its messages and tickets; if complete, none idle is left, and otherwise that many are gone; `complete` is reported if and only if there were fewer |
| Sweeps.RetentionSweeps.PurgeNotes | app/services/nuvrag_mem/erasure.py:113-146 | the same for notes: only this chatbot's, last referenced before the cutoff, about nobody with an open or pending ticket, go; every other stays unchanged; if complete, none such is left |
| Ingestion.ChunkSections | app/services/ingestion/chunker.py:46-70 | the nested loops with their early return give the first max(1, ceiling) non-blank pieces, numbered |
| Ingestion.CutShape | app/services/ingestion/chunker.py:55-70 | chunk i has index i and a trimmed, non-empty body; a positive ceiling holds; there are no chunks only when there is no text |
| Ingestion.CutCovers | app/services/ingestion/chunker.py:46-70 | the chunks are the pieces that are more than white space, in document order, each trimmed and with its section's metadata: all of them below the ceiling, and otherwise the first max(1, ceiling) |
| IngestionRuns.Settled | app/services/ingestion/pipeline.py:124-148 | a width is agreed if and only if there are vectors, all have it, and it is the one locked to |
| IngestionRuns.Pipeline.ProcessDocument | app/services/ingestion/pipeline.py:46-121 | an undisturbed attempt replaces exactly this document's rows by one row per chunk with its index, text and width, refuses exactly for no text, miscounted or disagreeing vectors, and then leaves the old rows |
| IngestionRuns.AttemptAloneIsProcessed | app/services/ingestion/pipeline.py:46-121 | the transactions of one attempt with nothing in between are that method |
| IngestionRuns.StatusAfter | app/services/ingestion/pipeline.py:27-153 | a document changes status only by an upload, its own attempt starting or publishing, a failure mark or a request to process again, to the status each stands for; its count changes only with its chunks |
| IngestionRuns.StepKeepsGood | app/services/ingestion/pipeline.py:46-153 | every transaction keeps each document's rows equal to what one attempt on it cut |
| IngestionRuns.DocumentsStayWhole | app/services/ingestion/pipeline.py:46-121 | however attempts, failures, reprocessing and deletes interleave, a document's chunks are one attempt's, indexed 0 to n-1, of one width, counted by `chunk_count`, and ready implies at least one |
| IngestionRuns.StepWidth | app/services/ai/factory.py:288-304 | what is stored and what attempts under way will store agree on the locked width after a step if and only if the step neither overwrites a lock in use nor trusts one that no longer stands, whatever a replica shows |
| IngestionRuns.DisagreementCanBeStored | app/services/ingestion/pipeline.py:82-115 | from every state where they disagree, some continuation stores vectors of two widths |
| IngestionRuns.DivergingCanMix | app/services/ai/factory.py:288-304 | so every such step of a run has such a continuation |
| IngestionRuns.RunKeepsOneWidth | app/services/ingestion/pipeline.py:76-85 | in runs without such a step every stored vector has the locked width |
| IngestionRuns.TwoFirstsMixWidths | app/services/ai/factory.py:288-304 | two first ingestions at once leave two ready documents whose vectors differ in width |
| OldLocks.OldLockMixesWidths | app/services/ai/factory.py:117-126 | a run that overwrites no lock in use and still leaves two ready documents whose vectors differ in width, because one attempt read a lock that had been replaced |
| Sessions.CutOffIsHistory | app/services/revocation.py:62-84 | for an unexpired token the expiring per-user key answers as the full history of revocations would |
| Sessions.RevokedForGood | app/services/revocation.py:62-84 | after revoking everything at T no token with iat at or before the second of T is renewed in any run, even once the key has lapsed |
| Sessions.SameSecondIsRefused | app/services/revocation.py:82-84 | a session opened later within that second is refused too |
| SessionRuns.RenewableDescendsFromLaterLogIn | app/services/auth.py:100-110 | after revoking everything at T, in every run of log-ins, renewals and revocations, a session that can still be renewed descends from a log-in after the second of T |
| SessionRuns.InactiveGainsNothing | app/services/auth.py:78-110 | a deactivated account gains no session by logging in or renewing; an active one gains one from every log-in |
| Sessions.EntryLapsesEarly | app/services/revocation.py:37-50 | a deny-list entry ends before its token if and only if more than a second and not a whole number of seconds was left, and then by less than a second |
| Sessions.SignedOutThenRenewed | app/services/revocation.py:37-59 | a signed-out token that is renewed in its last second |
| Sessions.DeniedIsHistory | app/services/auth.py:113-128 | a token has a deny-list entry if and only if it was signed out, and the entry outlasts all but its last second |
| Sessions.RenewalIsHistory | app/services/auth.py:100-128 | until its last second a token is renewed if and only if it was never signed out, never revoked in or after its second, and its user is active |
| Sessions.FreshSessionLasts | app/core/security.py:40-85 | a session nobody ended is renewed until its lifetime from the second of issue is over and not after; an access token never is |
| Sessions.TokenService.RevokeToken | app/services/revocation.py:49-50 | one entry is set, lasting at least a second and to within a second of the token's expiry, or the full lifetime when the expiry is unreadable |
| Sessions.TokenService.SignOut | app/services/auth.py:113-128 | a readable refresh token is denied to within a second of its expiry; any other changes nothing |
| Sessions.TokenService.RevokeAllForUser | app/services/revocation.py:62-73 | one key per user holds the latest second of revocation for the refresh lifetime |
| Sessions.TokenService.RefreshTokens | app/services/auth.py:100-110 | each refusal if and only if its own reason holds and none before it in the order expired, signed out, cut off, deactivated; success hands out an access and a refresh token issued now, each with its own lifetime, which no cut-off in force covers |
| Teams.TeamService.InviteMember | app/services/team.py:33-72 | refused to an actor who could not act as the role; otherwise written exactly when nobody has the address and the organisation has no pending invitation to it |
| Teams.TeamService.Revoke | app/services/team.py:82-94 | a pending invitation of the actor's organisation becomes revoked, and nothing else changes |
| Teams.TeamService.UpdateMember | app/services/team.py:146-217 | allowed if and only if something is asked of a member of the organisation, the actor can act as the old and the new role, nobody suspends themselves, and a demoted owner leaves another of two active owners; role and activation then change together, and otherwise nothing does |
| Teams.TeamService.RemoveMember | app/services/team.py:170-187 | the member goes if and only if they are another of the organisation, not above the actor, and not an owner unless two owners are active |
| Teams.TeamService.AcceptInvitation | app/services/team.py:111-139 | accepted if and only if the invitation is pending and unexpired, nobody has its address, and its organisation exists; it is then spent and admits one active user with exactly its organisation, address and role |
| Teams.LosesOwnerExactlyWhen | app/services/team.py:146-217 | in every state a call leaves an organisation without an active owner if and only if it is an accepted suspension of the last one |
| Teams.RunKeepsOwner | app/services/team.py:111-217 | over every run whose updates come from currently active actors, every organisation keeps an active owner |
| Teams.MutualSuspension | app/services/team.py:211-217 | two owners authenticated beforehand can suspend each other and leave none |
| Teams.NobodyAboveIsTouched | app/services/team.py:146-217 | a call changes nobody ranked above its actor and gives nobody more than the actor's rank |
| Teams.RanksAreGranted | app/services/team.py:33-217 | over every run, everybody's role, organisation and address came from founding the organisation, from accepting an open invitation whose sender could act as that role, or, for the role, from a change by a colleague of that organisation who could |
| Teams.CountMeansTwo | app/repositories/identity.py:30-46 | the guard on the last owner asks for two different active owners |
| Teams.RunKeepsInvitations | app/services/team.py:33-139 | addresses stay unique across the platform and an organisation has at most one pending invitation to each |
| Teams.SpentForGood | app/services/team.py:82-139 | an invitation accepted or revoked stays so over every run and admits nobody |

## Left out

- JSON and UTF-8 codecs: a pair of functions that parse what they print, without raw line feeds as section 7 of RFC 8259 requires; a multi-byte character cut by the network is decoded before this model begins.
- Multi-line data: section 9.2.6 of the HTML Living Standard joins data lines with a line feed, the widget joins them directly; printed events have one data line, so the round trip does not depend on it. Errors thrown by the handler are not part of this model.
- UTF-16 code units: the widget's string offsets are taken over the same characters as the server's.
- Widget rendering: painting, typewriter animation, retries and the session header of the request.
- `_render_memories`, `build_chat_messages` and `_retrieval_params`: string assembly and single-branch defaults.
- Similarity in citations: the model's citation leaves out the rounded score.
- Cancellation inside a provider call, and latency figures; a client being closed when its task is cancelled counts as lost, although part of it may be closed.
- ChatTurns.KeptWhen: `done` carries the id of the conversation opened early in the turn; a delete in between is not modelled, so both ids are one.
- The broker behind the extraction queue: queueing is best effort in the code and always succeeds here; whether a ticket names the conversation is an input.
- Rate limiter fallbacks: Redis failures and clocks that run backwards void the bounds by design; costs are whole, and tokens are exact reals instead of Lua doubles printed to Redis.
- Client cache: a client in use by another coroutine may be closed after an invalidation; what is proved ends when `acquire` returns.
- UsageCaps.CapIsNeverPassed: a cap lowered during a month leaves a counter above it, so the theorem is about charges that carry one cap.
- A charge whose commit succeeds and whose acknowledgement is lost: `up` stands for errors before the commit, so a charge reported as an outage is never counted here, while there it is.
- Counters of past months: the month is part of the key, and reading `period_start` from the clock is an input.
- Upload metadata: file type by extension, checksum and the provider check before streaming. An object left in storage when its row cannot be written is one outcome of the model, as it is of the code.
- Extraction prompts, parsing of the model's reply, and the transcript window: candidates are inputs.
- Vector search: `nearest` is exact and similarity an abstract symmetric function; the index of the database is approximate.
- ExtractionRuns.NotesStayDistinct: one visitor and one vector width; other visitors have their own lock and rows.
- Retention.ErasureIsFinal: takes the erasure as one step, which sees every note inserted before it; an extraction whose insert is uncommitted then is in `Erasures`, where the two statements are two steps.
- Retention.DeletionForgets: the same; in `Erasures` the first statement's deletes show at once, although other transactions still see those notes until the erasure commits.
- Transactions: elsewhere each is one atomic step, so a ticket opened between the select and the delete of one sweep transaction, and a lost update of a message count, are not part of this model.
- Sweeps over all chatbots: the loop that adds up reports, and its log lines.
- The membership check of a ticket's assignee, ticket listing and read models.
- Splitter, text extractors, virus scan, token counts and storage: the splitter's pieces and the widths of the vectors are inputs; which attempt is retried is any.
- Exhausted ingestion jobs: no claim that they end failed, because the retry at app/worker/tasks.py:43 does not mark them.
- Signatures, password hashing, and PyJWT's refusal of an `iat` in the future, which no token issued by this server can meet.
- Sessions.RenewalIsHistory: a deleted user is treated as a deactivated one, and both pairs of a renewal count as issued at once.
- Team calls read their actor when the request is authenticated. The code takes no row locks, so two removals or demotions whose transactions overlap can each count two active owners and between them leave none; here one call is one step. A failure between a committed change and the revocation that follows it is left out.
- Slugs, names, invitation tokens and audit timestamps.
- Tenant isolation by row-level security, connection pools, metrics, tracing and migrations.
