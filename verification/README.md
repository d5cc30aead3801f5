# Mottainai: models and proofs

Mottainai is a multi-tenant chat assistant for food retail. This project models, in
Dafny, the parts of it whose correctness rests on more than one step: how evidence is
compacted for the language model, how stock is written under retries and crashes, how
requests and model calls are paced, how documents are cut into chunks, how one
company's graph is replaced among others, how unread notifications are counted, how
demand is forecast, and how an answer gets from an agent to a user. Paths in the table
are relative to the repository's root.

`dafny verify dfyconfig.toml` checks everything.

## How it is organised

| files | what they hold |
|---|---|
| `Json`, `Numerals`, `Characters`, `Wrappers` | JSON values and their compact printer, proved uniquely readable; numerals; Option |
| `Compaction`, `TableShape`, `Lossless` | the recursive table encoder, what a packed list looks like in terms of its records, the independent decoder, and the round trip between them |
| `WriteProtocol`, `WriteSafety`, `WriteTheorems`, `Ledger` | idempotent stock writes as a state machine over every request of every worker, its invariant, and what follows |
| `SingleCalls`, `KeyReuse` | what an undisturbed call leaves and which movements commit; whose request a reply answers when one key is used more than once |
| `WriteService`, `ReplayCodec`, `Replay` | the same call as imperative code under arbitrary interference; the value a result is cached as and the key it is cached under; both together: what a replay returns |
| `RateLimiter` | the sliding-window script as a class over a sorted set, against the full history of attempts |
| `Pacing`, `ToolLoop` | the shared "ready at" clock under a lock, as a state machine and as the code that follows it; the tool-calling loop |
| `Chunking`, `ChunkingLaws`, `ChunkingTheorems` | the packing loop; how a text is taken apart before it; optimality, and that nothing is lost |
| `GraphRows`, `GraphRowLaws`, `TenantGraph`, `TenantTheorems`, `Selections` | rows from collections and what they are in terms of them, the replace transaction, and isolation between companies |
| `Notifications` | three expiring keys, the exact drift of the unread counter, and what the inbox shows |
| `Forecast` | the dense daily series and the forecast, over exact rationals |
| `IntentCatalog`, `Judge`, `Supervisor` | keyword routing, the verdict on an answer, and the graph around them |

Code that changes state step by step is modelled by methods and classes, each proved
against a specification function or a state machine; the theorems are about that
specification. Code made of expressions is modelled by functions.

Where the code does not keep a natural promise, the project says exactly when it does:

- Compaction is lossless on exactly the values `Lossless.Safe` describes. A list of
  three lists that all become tables is lost (`Lossless.ListOfListsIsLost`), and so is a
  dict that already looks like a table (`Lossless.LookalikeIsLost`).
- A Retry-After binds every later attempt exactly when the provider is `groq`, whose
  calls hold the lock (`Pacing.RetryAfterIsKeptIffGroq`).
- The unread counter misses a notification when a live, already read one is created
  again (`Notifications.RevivedIsNotCounted`); `Notifications.CounterIsUnreadPlusDrift`
  gives its exact value in every run.
- A cached result is replayed as committed exactly when it holds no dict whose only key
  is the decimal tag (`ReplayCodec.ReplayIsFaithfulIff`).
- Under clock skew d the rate limit bounds the windows of length W - d in every run and
  no longer ones, for every W, d and positive limit (`RateLimiter.SkewShrinksTheWindow`).
- Selling more on one day can lower the forecast exactly when the day lies in the prior
  week (`Forecast.OnlyThePriorWeekLowers`).
- A page of the inbox shows every live notification exactly when none ranks behind it
  (`Notifications.ShowsAllIff`); expired ones keep their rank, so a page can be empty while
  a notification is live (`Notifications.ExpiredHideLive`).
- A caller can be told of another request made under its key. Every caller is told of its
  own, in every run, exactly when no two different requests are made under the key of which
  one can ever commit, or when results have no lifetime (`KeyReuse.RepliesAreOwnIff`).

The comment in `app/agents/context.py:65` calls the compact form lossless without
conditions; the code is followed.

## Model

| member | source | states |
|---|---|---|
| Json.PrintUnique | app/agents/context.py:35-36 | Two compact JSON texts that agree up to what may follow a value come from the same value and leave the same rest: the printer is uniquely readable inside any context |
| Json.PrintInjective | app/agents/context.py:35-36 | Equal printed text means equal value, so deciding "shared" on text is sound |
| Json.PrintForms | app/agents/context.py:35-36 | The text of every kind of value: literals, decimal numerals, items joined by single commas in brackets, entries as quoted key, colon, value in braces, no white space |
| Json.QuoteForm | app/agents/context.py:35-36 | A quoted text character by character: seven short escapes, four hexadecimal digits for other control characters, everything else as it is |
| Numerals.NoLeadingZero | app/agents/context.py:35-36 | A numeral has no leading zero |
| Lossless.LosslessIffSafe | app/agents/context.py:39-61 | For every JSON value, decoding the packed value succeeds and gives the original, as maps and sequences, if and only if the value is Safe |
| Lossless.PlainIsSafe | app/agents/context.py:39-61 | Values with no table-lookalike dict and no list directly in a list are Safe |
| Lossless.CompactionIsLossless | app/agents/context.py:64-67 | On those values the round trip keeps rows, duplicates, missing versus null, and true versus 1 |
| Lossless.ModelTextCarriesTheFacts | app/agents/context.py:64-67 | Whatever JSON value reads back from the text sent to the model decodes to the original |
| Lossless.TableDecodes | tests/prompt_support.py:10-15 | The decoder accepts an encoder's table exactly when its shared entries decode to a dict and every entry of every record decodes; then row i has exactly record i's entries, decoded |
| Lossless.ConstantColumn | app/agents/context.py:51-54 | A column is factored out only when every record holds the same value there, not just the same text |
| Lossless.NeverGrows | app/agents/context.py:60-61 | The packed value never prints longer than the original, at any depth, for every JSON value |
| TableShape.SharedIff | app/agents/context.py:51-54 | A key stands under "shared" exactly when every record holds the same value at it, and with that value |
| TableShape.SharedIs | app/agents/context.py:51-54 | "shared" holds the first record's entries at which all records agree, in its order, each once |
| TableShape.TableIs | app/agents/context.py:55-59 | "columns" lists the keys at which some record differs, in the first record's order; row i holds record i's values at those keys; nothing else but "format" and a nonempty "shared" |
| TableShape.TabularIff | app/agents/context.py:46-50 | A list can become a table exactly when it has at least three items, all dicts, with the same nonempty set of keys |
| TableShape.PackedListIs | app/agents/context.py:45-61 | A list becomes its table exactly when it has one that prints to less than 85% of its packed items; otherwise it is its packed items |
| TableShape.PackedElsewhere | app/agents/context.py:41-44 | Dicts are packed entry by entry and everything else stays |
| TableShape.RowsAreStrict | tests/prompt_support.py:13 | A row with more or fewer cells than columns fails to decode |
| Lossless.ListOfListsIsLost | app/agents/context.py:45-61 | Three lists that each become a table are packed again and one decoding pass does not undo it |
| Lossless.LookalikeIsLost | tests/prompt_support.py:10-15 | A dict with format "table", columns and rows does not survive |
| WriteSafety.StepKeeps | app/cache/idempotency.py:81-111 | Every request of every worker, refused, failed, cancelled or unanswered, keeps the protocol's invariant |
| WriteTheorems.CommitsATtlApart | app/cache/idempotency.py:81-111 | Any workers, any interleaving, any failures: two commits of one key are at least the TTL apart |
| WriteTheorems.AtMostOnce | app/cache/idempotency.py:69-75 | Until a TTL has passed since the start, each key commits at most once |
| WriteTheorems.RepliesAgree | app/cache/idempotency.py:81-97 | Every successful reply is a commit of the caller's own key, and two of one key are the same commit unless their commits are a TTL apart |
| WriteTheorems.SavedResultIsReplayed | app/cache/idempotency.py:105-111 | From the SET until the TTL runs out, at all three GETs and even with the lock stuck, the saved result is the answer |
| WriteTheorems.ReplyIsForTheCommittersRequest | app/cache/idempotency.py:81-97 | A reply carries the request of a known call of the same key, the one that committed; so it is the caller's own whenever all calls of the key ask for the same |
| WriteTheorems.ReusedKeyGetsTheEarlierMovement | app/cache/idempotency.py:81-83 | A key used again while its result is cached gets that result, whatever is asked for |
| KeyReuse.RepliesAreOwnIff | app/cache/idempotency.py:81-111 | For every key and every set of requests made under it: all successful callers are told of their own request in every run, if and only if the set holds no request that can commit beside a different one, or the TTL is zero |
| KeyReuse.ReuseIsToldOfTheFirst | app/cache/idempotency.py:81-83 | The failing run, from the initial state, for any two such requests: stock is supplied, the first is committed, and a second caller of the key asking for the other is told of the first |
| SingleCalls.UndisturbedFinishes | app/cache/idempotency.py:69-111 | A call nobody disturbs commits its request on the stored balance, leaves its result in the cache for the TTL and no lock behind, and returns it |
| SingleCalls.DisposalCommitsIff | app/tools/postgres_tools.py:266-322 | An undisturbed disposal of a positive quantity of a known row commits exactly when the balance covers it and, for a clerk, quantity * 100 is at most ceiling * balance; managers and owners have no ceiling; otherwise stock, log, items and cache are as before |
| SingleCalls.DisposalIsTurnedBackIff | app/tools/postgres_tools.py:223-281 | A clerk's disposal of more than the ceiling's share of a positive balance ends rejected with everything as it was and the key free, and nobody else's is turned away |
| SingleCalls.ReceiptCommits | app/tools/postgres_tools.py:333-387 | An undisturbed receipt of a positive quantity adds it to the balance, for any role |
| WriteTheorems.HitsIff | app/cache/idempotency.py:81-97 | A GET hits exactly while the key has a result whose lifetime is not over; a miss goes on to the lock, to "in progress" or to the callback |
| KeyReuse.CommittedCanCommit | app/tools/postgres_tools.py:256-281 | Whatever is committed in any run has a positive quantity and a known row, and a clerk's disposal a positive ceiling |
| WriteTheorems.FailureBlocks | app/cache/idempotency.py:103-104 | Any failure under the lock, and a lost reply to acquisition, commit or SET, leaves the key's lock with a stopped worker |
| WriteTheorems.BlockedForever | app/cache/idempotency.py:10-14 | A blocked key stays blocked and commits nothing more in every continuation |
| WriteTheorems.RefusalFreesTheKey | app/cache/idempotency.py:100-102 | After a validation or permission error the key is free and stock, log, items and cache are as before |
| Ledger.StockIsConserved | app/tools/postgres_tools.py:283-322 | In every reachable state each row's balance is the initial one plus receipts minus disposals, its disposal items total the disposals, and every movement was lawful |
| Ledger.CeilingOverRuns | app/tools/postgres_tools.py:272-281 | After n accepted clerk disposals and no other movement, by any concurrent workers, at least initial * (1 - p/100)^n is left |
| Ledger.ClerksNeverEmptyARow | app/tools/postgres_tools.py:223-227 | With p below 100, clerks alone never empty a row |
| Ledger.StepRefines | app/tools/postgres_tools.py:355-380 | One step of the protocol is, seen from the ledger, nothing, time passing, or one enabled application of a key |
| Ledger.ProtocolRefinesLedger | interfaces/api/main.py:835-837 | Every run refines a ledger that applies each company, user, operation and client key once per TTL |
| WriteService.Service.RunIdempotent | app/cache/idempotency.py:69-111 | The code, with anything other workers do between its requests and with any one of its requests failing, unanswered or cut off, is a run of the protocol made of exactly two things: its own actions, which are the requests of its path in order up to the fault, and the parts its scene gives the others. Its outcome is the worker's final place, a rejection or exception of an undisturbed call has its reason, and a malformed key touches nothing |
| WriteService.Service.MoveStock | app/tools/postgres_tools.py:230-387 | The callback waits for a locked row as long as it is let, then commits one movement, is rejected for its arguments, account, missing row or ceiling, or breaks: on a row that stayed locked, a balance that would become negative, or a fault |
| WriteService.Service.CommitMove | app/tools/postgres_tools.py:300-322 | One transaction records the item, the movement and the new balance of the locked row |
| WriteService.Service.SaveAndRelease | app/cache/idempotency.py:105-111 | Answers with the committed movement unless the SET or the release fails, and then the place it stops at keeps the lock or the cached result as the protocol says |
| WriteService.OthersLeaveIt | app/cache/idempotency.py:81-111 | Nothing the other workers do moves this call |
| ReplayCodec.ReplayIsFaithfulIff | app/cache/idempotency.py:38-57 | Decoding the encoded result gives it back, decimals included, if and only if it holds no dict whose only key is the tag |
| ReplayCodec.EncodedForms | app/cache/idempotency.py:48-51 | A decimal is written as a dict with its text under the tag; lists and dicts keep their size |
| ReplayCodec.TextCarriesTheResult | app/cache/idempotency.py:105-109 | Two such results cached as the same text are the same result |
| Replay.RepliesDecodeToTheCommit | app/tools/postgres_tools.py:324-387 | Every successful reply is a commit of the caller's key, and the value cached for it decodes to the very dict the callback returned, decimals included |
| Replay.ResultReads | app/tools/postgres_tools.py:324-387 | What the returned dict holds under each key |
| Replay.CachedTextIsTheCommit | app/cache/idempotency.py:105-111 | From the SET until the TTL runs out, whatever happens, the cached value of the key decodes to the dict of the call that committed |
| ReplayCodec.ScopeTextInjective | app/cache/idempotency.py:114-117 | Different users, operations or client keys are never hashed from the same text |
| ReplayCodec.ScopeTextIs | app/cache/idempotency.py:60-66 | A key is refused when empty, with a colon or longer than 128; otherwise user, operation and key are joined by colons |
| RateLimiter.BudgetKey.Check | app/cache/rate_limit.py:10-22 | Prune, add, count and expire leave exactly the set the history calls for; allowed iff its size is at most the limit |
| RateLimiter.StoredIffSurvives | app/cache/rate_limit.py:17-20 | An attempt is stored iff no later cutoff reached it and the key never expired since |
| RateLimiter.LimiterCountsTheWindow | app/cache/rate_limit.py:17-21 | With time that does not go back, the set is exactly the attempts, denied ones included, in (now - W, now] |
| RateLimiter.ExpiryNeverMatters | app/cache/rate_limit.py:20 | The key's EXPIRE never changes what is stored |
| RateLimiter.WindowBound | app/cache/rate_limit.py:32-46 | With clock skew at most d, any half-open window of length W - d holds at most limit allowed attempts, in every run |
| RateLimiter.BandGivesSkew | app/cache/rate_limit.py:34-41 | Callers' clocks within a band of width d around the Redis clock satisfy both clock conditions |
| RateLimiter.SkewShrinksTheWindow | app/cache/rate_limit.py:32-46 | With clock skew at most d, the limit bounds the allowed requests of every window of a given length in every run, if and only if that length is at most W - d (or the window is empty, or the limit zero) |
| Pacing.StepKeeps | app/agents/runtime.py:77-112 | With groq, every step of every task keeps the invariant and never lowers the ready time |
| Pacing.RunKeeps | app/agents/runtime.py:77-112 | In every run with groq the ready time never decreases and every start obeys all earlier answers and refusals |
| Pacing.TokenRateIsKept | app/agents/runtime.py:99-104 | With groq and rate R, two answered calls i before j start at least 60/R times the tokens of calls i to j-1 apart, with failures, refusals, retries and cancellations in between |
| Pacing.RetryAfterIsKeptIffGroq | app/agents/runtime.py:91-98 | In all runs no attempt of any task starts before an earlier refusal's Retry-After has passed, if and only if the provider is groq |
| Pacing.RetryAfterIsHonoured | app/agents/runtime.py:91-98 | Said of the actions of any run with groq: whatever is sent after a 429 is sent at least its Retry-After later, none if negative, one second if it is no number |
| Pacing.ReadyTimeAfter | app/agents/runtime.py:91-105 | What each action does to the ready time, exactly: a refusal by its header, an answer by 60/R per token (the total, or input plus output if there is none), anything else not at all |
| Pacing.NoLongerThanReady | app/agents/runtime.py:85-88 | A task that measures can send exactly from the ready time on, or at once |
| Pacing.AttemptsAreCounted | app/agents/runtime.py:79-83 | A call that meets only refusals and transient errors makes max(1, llm_max_retries) attempts; any other outcome ends it at once, with its reply |
| Pacing.SendsAreCounted | app/agents/runtime.py:79-98 | Each attempt that does not time out waiting sends exactly once |
| Pacing.OtherProvidersForget | app/agents/runtime.py:107-112 | Without the lock, overlapping calls' refusals overwrite each other |
| Pacing.Quota.Ainvoke | app/agents/runtime.py:74-112 | One call, with any other tasks acting between its steps, is a run of the machine in which this task does exactly what its attempts call for, within max(1, retries) attempts, and replies as the settling attempt says; or it waits for the lock until its deadline and does nothing |
| Pacing.Quota.TryOnce | app/agents/runtime.py:85-105 | One attempt sleeps to the ready time it measured, sends, and ends as its outcome says, retrying only rate limits and transient errors that have an attempt left, whatever other tasks do meanwhile |
| ToolLoop.RunAgentWithTools | app/agents/runtime.py:252-279 | For any model and tools: at most max_iterations + 1 calls, each on the conversation so far, tools bound in all but the last; stops at the first reply without requests; usage is the sum over all replies; a raising call ends it |
| ToolLoop.AppendRound | app/agents/runtime.py:267-277 | The request and one answer per requested call, in order, with its own id, unknown and failing tools included |
| ToolLoop.NothingIsLeftOpen | app/agents/runtime.py:267-277 | Read by an independent scanner, every conversation sent to the model answers each request exactly once, in order, before anything else is said |
| ToolLoop.AnswersAre | app/agents/runtime.py:268-277 | What is fed back for each call: the unknown tool by name, the failure by name and exception text, or the tool's result |
| ToolLoop.UsageIsTheSum | app/agents/runtime.py:254-260 | The usage handed back adds up each of the three counts over all replies |
| ToolLoop.DialogueIsDetermined | app/agents/runtime.py:262-279 | Under one world any two such dialogues agree as far as both go |
| Chunking.PackSentences | app/rag/ingestion.py:72-83 | The packing loop computes the joined greedy groups |
| Chunking.SplitIntoChunks | app/rag/ingestion.py:57-84 | The whole function computes Chunks |
| ChunkingLaws.SplitReadsBack | app/rag/ingestion.py:65-72 | Splitting what was joined by a separator gives the parts back |
| ChunkingLaws.SplitGlues | app/rag/ingestion.py:65-72 | Joining what was split gives the text back |
| ChunkingLaws.StripIs | app/rag/ingestion.py:65-76 | Stripping takes white space off both ends and nothing else |
| ChunkingLaws.ParagraphsReadBack | app/rag/ingestion.py:65 | Paragraphs with blank lines between them are found again |
| ChunkingLaws.ShortParagraphsStayWhole | app/rag/ingestion.py:67-70 | Paragraphs of at most max_chars are the chunks |
| ChunkingLaws.SentencesReadBack | app/rag/ingestion.py:72 | Sentences with full stop and space between them are found again |
| ChunkingLaws.LineBreaksAreSpaces | app/rag/ingestion.py:72 | A line break inside a long paragraph counts as a space |
| ChunkingLaws.PieceIs | app/rag/ingestion.py:75 | A sentence that ends in ".", "!" or "?" is packed as it is, any other with a full stop |
| ChunkingLaws.JoinIs | app/rag/ingestion.py:76 | Pieces are joined by single spaces |
| ChunkingLaws.LongParagraphIsPacked | app/rag/ingestion.py:68-83 | A long paragraph of sentences is packed greedily from them, each ended |
| ChunkingTheorems.GreedyIsOptimal | app/rag/ingestion.py:73-83 | No order-preserving grouping into groups that fit or are single sentences has fewer groups |
| ChunkingTheorems.GreedyIsValid | app/rag/ingestion.py:73-83 | The greedy grouping is such a grouping of exactly these pieces |
| ChunkingTheorems.ChunksRejoin | app/rag/ingestion.py:76 | Joining the chunks with a space gives the joined pieces |
| ChunkingTheorems.LongParagraph | app/rag/ingestion.py:68-83 | A long paragraph becomes as few chunks as any valid grouping, each fitting or a single sentence, rejoining to its sentences |
| ChunkingTheorems.NothingIsLost | app/rag/ingestion.py:57-84 | For every text and limit the chunks carry every character in order, spaces and full stops aside |
| ChunkingTheorems.ChunksAreTrimmed | app/rag/ingestion.py:65-83 | No chunk is empty or has white space at either end, for any text and limit |
| ChunkingTheorems.NoChunksIffBlank | app/rag/ingestion.py:65 | No chunks come out exactly when the text is blank |
| GraphRows.BuildGraphRows | scripts/sync_neo4j_rag.py:93-188 | The rows are the specified ones, and citations plus skipped citations equal the RAG sources on valid assistant messages |
| GraphRows.CollectCitations | scripts/sync_neo4j_rag.py:140-165 | Citations in message order, each RAG source either cited or counted as skipped |
| GraphRows.RetrieverRefParses | scripts/sync_neo4j_rag.py:150-154 | A reference written as doc and chunk reads back as the lower-cased id and the number |
| GraphRows.RowsAreLinked | scripts/sync_neo4j_rag.py:95-165 | For any collections every citation row has its message and chunk rows, every message row its conversation row, every chunk row its document row |
| GraphRows.ByIdIds | scripts/sync_neo4j_rag.py:95-96 | The by-id dict has each id once and exactly the ids of the collection |
| GraphRowLaws.RefTextParses | scripts/sync_neo4j_rag.py:150-154 | "doc:", 24 hexadecimal digits, white space, "chunk:", digits is read as the id in lower case and the number |
| GraphRowLaws.ParsedIsRefText | scripts/sync_neo4j_rag.py:150-153 | Only texts of that form are read |
| GraphRowLaws.CitationsAre | scripts/sync_neo4j_rag.py:140-165 | Exactly one citation row, in order, for every RAG source of an answering message whose reference names a document and one of its numbered chunks, with its message's key, chunk's key and score; skipped counts exactly the other RAG sources |
| GraphRowLaws.MessagesAre | scripts/sync_neo4j_rag.py:109-124 | One row for every message of a known conversation, in order, with its own fields |
| GraphRowLaws.ChunksAre | scripts/sync_neo4j_rag.py:126-138 | One row for every integer-numbered chunk of a document there is, in order, with its own keys |
| GraphRowLaws.DocumentsAndConversationsAre | scripts/sync_neo4j_rag.py:98-107 | Documents and conversations become rows one by one, with their own fields |
| GraphRowLaws.ByIdKeepsTheLast | scripts/sync_neo4j_rag.py:95-96 | The dict keeps each id at its first place and with its last value |
| TenantGraph.Database.WriteBatch | scripts/sync_neo4j_rag.py:39-41 | Writing in batches of 500 does what one pass over the rows does |
| TenantGraph.Database.ReplaceTenantGraph | scripts/sync_neo4j_rag.py:196-253 | The transaction leaves Replaced of the old graph |
| TenantTheorems.PrefixesDisjoint | scripts/sync_neo4j_rag.py:199-205 | "a:" prefixes no key of another company, since decimal numerals are unique |
| TenantTheorems.DeletesExactlyTheCompany | scripts/sync_neo4j_rag.py:199-209 | The two deletions remove exactly the company's node, the nodes whose key starts with its number and a colon, and the edges at them |
| TenantTheorems.ReplacedIsOthersAndProjection | scripts/sync_neo4j_rag.py:196-253 | Afterwards the graph is the other companies' part, untouched, beside the projection alone |
| TenantTheorems.OthersUntouched | scripts/sync_neo4j_rag.py:196-211 | Every node and edge of every other company stays, in order |
| TenantTheorems.ImportsKeepTenantsApart | scripts/sync_neo4j_rag.py:196-253 | Over any run of imports no edge crosses companies and a company the run does not import keeps its nodes and edges |
| TenantTheorems.LastImportWins | scripts/sync_neo4j_rag.py:196-253 | Only the last import of a company counts; replacing twice equals once |
| TenantTheorems.BuiltRowsAreKeyed | scripts/sync_neo4j_rag.py:93-188 | The rows built from any data carry the company's prefix in every key |
| TenantTheorems.ProjectionCopies | scripts/sync_neo4j_rag.py:212-253 | With any repetition of ids: how many copies of every node and edge the five UNWIND statements create, a node once for each listing of its row and of the row its key refers to, an edge to a parent once for each listing of its row and each copy of the parent, a citation once for each listing and each pair of copies |
| TenantTheorems.ProjectionIsRelational | scripts/sync_neo4j_rag.py:212-253 | The nodes and edges are exactly those of the rows joined on their keys |
| TenantTheorems.EveryRowIsProjected | scripts/sync_neo4j_rag.py:222-253 | With rows built from collections no message, chunk or citation is dropped by its MATCH |
| Notifications.Inbox.Create | app/cache/notifications.py:48-65 | Invalid priority or id changes nothing; otherwise the three keys become what the script makes them |
| Notifications.Inbox.MarkRead | app/cache/notifications.py:88-98 | Answers true exactly when the listed notification was live and unread, and changes only its status and the counter |
| Notifications.CreateStores | app/cache/notifications.py:10-19 | What creating leaves in the three keys: the entry with its own fields, unread, for its lifetime; the score; the counter one up unless it was live |
| Notifications.MarkStores | app/cache/notifications.py:21-29 | What marking leaves: read, other fields and lifetime kept, one off a positive counter; or nothing changed |
| Notifications.CountRead | app/cache/notifications.py:68-70 | The count is the counter while its key lives and zero otherwise |
| Notifications.CreatedReadsBack | app/cache/notifications.py:48-85 | A created notification reads back with its own fields until its lifetime is over, whatever happens to others |
| Notifications.StepKeeps | app/cache/notifications.py:10-29 | A live notification is always listed, and inbox and counter keys outlive it |
| Notifications.CounterGoesLast | app/cache/notifications.py:13-17 | When the counter key is gone no notification is live |
| Notifications.CounterIsUnreadPlusDrift | app/cache/notifications.py:10-29 | In every run the counter is the live unread ones plus those that expired unread, minus read ones created again, plus marks at zero, since the key last came to life; never negative |
| Notifications.CounterCoversUnread | app/cache/notifications.py:10-29 | With no live read notification created again it is at least the unread ones, and equal exactly until one expires |
| Notifications.CounterNeverExceedsUnread | app/cache/notifications.py:21-29 | Until something expires unread it is between zero and the unread ones, in every run |
| Notifications.RevivedIsNotCounted | app/cache/notifications.py:11-16 | Create, mark, create again: one unread, counter zero |
| Notifications.MarkedOnce | app/cache/notifications.py:22-28 | A live unread notification is marked once, and not again until created again, whatever else happens |
| Notifications.Inbox.GetInbox | app/cache/notifications.py:73-85 | The existing hashes among the first limit ids of the ranking, in order; a limit outside 1 to 100 is refused |
| Notifications.InboxIsOrdered | app/cache/notifications.py:56-85 | A page shows exactly the live ones among its ids with their own fields, higher priorities first and within one the later |
| Notifications.ShowsAllIff | app/cache/notifications.py:78-85 | A page shows every live notification exactly when none ranks behind it |
| Notifications.ExpiredHideLive | app/cache/notifications.py:78-85 | An expired notification of higher priority keeps the only live one off a page of one |
| Forecast.BuildDailySeries | app/analytics/forecasting.py:12-40 | One entry per day back, oldest first: the product's truncated quantities of that day, or zero |
| Forecast.SeriesKeepsTheSales | app/analytics/forecasting.py:28-40 | The series adds up to the product's truncated quantities dated inside the window |
| Forecast.OrderIsIrrelevant | app/analytics/forecasting.py:29-35 | The order of the rows does not matter |
| Forecast.TruncateIs | app/analytics/forecasting.py:35 | A quantity loses its fraction, towards zero |
| Forecast.RoundIsNearestEven | app/analytics/forecasting.py:82-94 | Rounding goes to the nearest integer and from halfway to the even one |
| Forecast.ShortHistoryIsFlat | app/analytics/forecasting.py:54-63 | With no history nothing is forecast; with less than two weeks seven times the average, without a trend |
| Forecast.ProjectionIsBounded | app/analytics/forecasting.py:65-83 | Two weeks or more between lo and hi project between 0.7 lo and 1.6 hi a day, with a trend within -50 and 100 percent |
| Forecast.MoreDemandNeverForecastsLess | app/analytics/forecasting.py:65-97 | Raising any days outside the prior week never lowers the forecast, across the zero-prior branch, both clamps, short histories and rounding |
| Forecast.OnlyThePriorWeekLowers | app/analytics/forecasting.py:67-83 | For every history length n and day i: some history of n days is forecast as less when more is sold on day i, if and only if n is at least 14 and day i lies in the prior week |
| Forecast.ConstantDemand | app/analytics/forecasting.py:73-94 | A constant demand c is forecast as 7c with no trend, for any sign and length |
| Forecast.StepInDemand | app/analytics/forecasting.py:65-97 | A week of one demand after a week of another, in closed form on all three branches: doubling or more is +100% and 9.8 recent + 1.4 prior, halving or less is -50% and 3.5 recent + 1.4 prior, between them the trend is recent / prior and the forecast 4.2 recent^2 / prior + 1.4 (prior + recent), rounded; averages, history and method as reported |
| IntentCatalog.MatchIntent | app/agents/intent_catalog.py:104-134 | Returns the first of the most confident intents that qualify, or nothing exactly when none does |
| IntentCatalog.WinnerIsUnique | app/agents/intent_catalog.py:131-132 | The choice is determined by the catalogue alone |
| IntentCatalog.QualifiesIff | app/agents/intent_catalog.py:119-130 | An intent qualifies exactly when its agent is allowed, one of its examples occurs in the text, and those that do are at least the threshold's share of all |
| IntentCatalog.ContainsIff | app/agents/intent_catalog.py:125 | An example counts exactly when it stands somewhere in the text |
| IntentCatalog.ChosenIsFirstAndMost | app/agents/intent_catalog.py:131-134 | What is chosen is the first of the qualifying intents with the largest share of examples found, with its key, agent and share |
| IntentCatalog.ZeroThresholdIsAnyKeyword | app/agents/intent_catalog.py:113-116 | With thresholds of zero an intent qualifies exactly when one keyword of an allowed intent is in the text |
| Judge.RunJudgeEvaluation | app/agents/juiz.py:55-100 | A verdict exactly for a well-formed object with a score in [0, 1], otherwise a refusal marked unavailable; tokens are counted either way |
| Judge.NodeAgenteJuiz | app/agents/juiz.py:161-203 | At most two evaluations; approved exactly when one is in favour; the text, score and token counts that follow |
| Judge.FailsClosed | app/agents/juiz.py:103-112 | Supports Supervisor.ReleasedOnlyInFavour: the agent's words come out only under a verdict with all three flags and at least 0.7; "unavailable" exactly when neither evaluation gave a verdict; each refusal is explained by a verdict that made it |
| Judge.DecidedBy | app/agents/juiz.py:103-203 | In plain terms: the answer exactly when one evaluation has three true flags and a score from 0.7 to 1; otherwise the text of the first well-formed one, by its flags; otherwise "unavailable" |
| Judge.TokensOfBoth | app/agents/juiz.py:69-73 | The tokens of both calls are counted, whatever they answered |
| Judge.RetryOnlyHelps | app/agents/juiz.py:165-175 | Supports Judge.NodeAgenteJuiz: the second opinion never turns a release into a refusal, and when not in favour changes nothing a first verdict said |
| Supervisor.PipelineIsSafe | app/agents/supervisor.py:217-266 | A request that is not refused at the door and finishes visits one agent its role may reach, then the Judge, then the filter; its final text is the filtered released text, short and free of what the filter looks for, or the withheld text |
| Supervisor.ReleasedOnlyInFavour | app/agents/supervisor.py:127-134 | Of the finished request: the filter of the agent's own reply exactly under a verdict in favour, otherwise the filter of a fixed text, and of "unavailable" exactly when both evaluations failed |
| Supervisor.RefusedAtTheDoor | app/agents/supervisor.py:31-51 | The other case beside Supervisor.PipelineIsSafe: a refused message ends with its reason and reaches no agent |
| Supervisor.RefusedFor | app/guardrails/entrada.py:62-86 | A message is refused for the first of these that holds: only white space, more than 4096 characters, an injection, over the rate |
| Supervisor.RefusedIff | app/agents/supervisor.py:31-51 | A finished request stops at the guard, with no agent's word and the text of that reason, exactly when one of them holds; every other one visits an agent |
| Supervisor.ApprovedAnswerIs | app/agents/supervisor.py:127-167 | After approval the user reads the agent's reply to the redacted message, redacted again, unless that leaks or exceeds 8192 characters |
| Supervisor.FinishesUnlessANodeRaises | app/agents/supervisor.py:243-264 | Every request finishes unless a node raises: the selected agent is always a node of the graph |
| Supervisor.RoutedWithinRole | app/agents/supervisor.py:78-124 | No catalogue content routes a role outside its own agents |
| Supervisor.SpecialistIffIntent | app/agents/supervisor.py:113-118 | The FAQ or forecast agent answers exactly when the catalogue has a qualifying intent for it |

## Left out

- Redis, PostgreSQL, MongoDB and Neo4j themselves: only the state they keep and the atomicity of one script, transaction or request. A Redis entry is gone from the instant of its expiry; eviction and loss are excluded, as the source's own notes exclude them.
- `fn_atomic_update_inventory` is not part of this model: it is taken to add the delta to the stored balance under the row lock and to fail when the result would be negative.
- ValueError and PermissionError from a write's callback are taken to mean rolled back (`app/cache/idempotency.py:72`, `app/database/postgres.py:55-63`).
- SHA-256 is taken to be injective; the text that is hashed is proved to be.
- `session.execute_write` in the graph script is taken to be atomic; queries that load a company's collections, and the counts the transaction returns, are not modelled.
- Nodes are their label and properties, so two nodes with identical ones are told apart only by their number; properties are strings, dates already formatted.
- The `Decimal` and date hook of `context_json`; compaction starts from the JSON value it produces. A float is identified with the text repr gives it, lone surrogates are ignored, and the 0.85 of the size guard is exact.
- Table columns that are not strings: the decoder's exception stands for them.
- json.loads as the inverse of json.dumps: proved is that the compact printer is injective, so a text has at most one value.
- Not-a-number and infinite decimals in cached results.
- `\d` in a citation reference is an ASCII digit; text is a sequence of Dafny characters.
- Sorted-set members of the rate limiter are fresh by construction of their uuid; the window is positive.
- asyncio sleeps last at least as long as asked. Retry-After values of NaN or infinity are not modelled; token counts are not negative.
- Which exceptions count as transient, the lengths of back-off pauses and of the request deadline: any of them.
- Tool arguments and results beyond their text, and the prompts.
- The wording of the Judge's fixed texts and of the input guardrail's reasons, the regular expressions of both guardrails, and upper and lower case: parameters of the theorems.
- Conversation history, memory, message storage, logging and metrics, and the background flush of tool runs.
- Floating-point rounding: scores, confidences and forecasts are exact rationals, rounded half to even where the code rounds.
- WriteService.Service.RunIdempotent: what the database does with a transaction whose call was cut off happens after the call, in the state machine.
- The ids and the hashes of an inbox page are read in separate requests; the model reads them at one instant.
- The intent catalogue's 60-second cache, the shelf crosscheck, session handling, authentication, webhooks, weather, image analysis and the HTTP routes: each fetches, stores or formats one thing and takes part in none of the protocols above.
