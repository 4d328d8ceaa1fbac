# Verified model of the agent platform's backend protocols

This Dafny project models the backend of a platform that runs chat agents, and proves what its protocols and
algorithms keep. `dafny verify dfyconfig.toml` checks everything. One file holds one component:

| file | what it models |
|---|---|
| `Prelude.dfy` | optional values, Python's `strip`, `join` and blank characters |
| `ConvLocks.dfy` | the ordered, bounded table of per-conversation turn locks, on values and as a class |
| `RunnerSteps.dfy` | the runner protocol as a state machine: instances, stream, coroutines, leases, slots, time |
| `RunnerLease.dfy` | at most one holder per conversation, late releases |
| `RunnerPlaces.dfy` | conservation of submitted turns, attempts, the dead letter queue |
| `RunnerResources.dfy` | slots and turn locks are bounded and given back |
| `RunnerProgress.dfy` | no deadlock, the order of turns, retries and rests |
| `RunnerLocks.dfy` | when turns of one process and conversation exclude each other |
| `RedisModel.dfy` | a Redis store with expiry times and an explicit clock |
| `RateLimit.dfy` | fixed-window counters, the send gate and the login guard |
| `Auth.dfy` | token lifetimes, blacklist, revocation watermark, refresh, logout |
| `Confirmation.dfy` | the subscribe / look / wait handshake of confirmations |
| `Summary.dfy` | the incremental summarisation cursor |
| `Chunking.dfy`, `Sections.dfy`, `ChunkIndex.dfy` | sliding windows, heading-driven sections, the chunk index |
| `RankFusion.dfy` | reciprocal rank fusion |
| `FileStore.dfy` | the versioned workspace files |
| `CallLog.dfy` | the collector of tool and model calls |
| `SessionPool.dfy`, `PoolRuns.dfy` | pooled and warm agent subprocesses, on values and as a class; every run of them |
| `Scheduler.dfy` | the cron tick and the workers that run it |
| `ConfigMerge.dfy` | deep merge and the sync of a configuration file |
| `Paths.dfy` | path normal form and containment |
| `Memory.dfy` | memory trimming, prompt sections, episodes |

Protocols are state machines whose steps are the code between two awaits, so their runs are all interleavings.
Objects that the source updates in place are classes whose methods are proved against functions on values; the
promises are then proved about those functions. Floating-point numbers are exact rationals. Clocks, outcomes of
subprocesses, of the language model and of the database, and cron results are parameters.

## Where the code and its promises part

* The lock table evicts entries that are not `locked()`. Between a release and the moment the woken waiter runs, a
  lock is waited for but not locked, and can be dropped. `RunnerLocks.TwoTurnsAtOnce` is a run with 1025
  conversations after which two coroutines of one process hold different locks for the same conversation. Nothing but
  a lookup whose eviction loop reaches a lock in use does this (`RunnerLocks.EnteredStaysIff`). The `_run_task`
  docstring still says the table is never cleaned.
* A conversation is never summarised when `summary_preserve_recent` is 0, because `all_msgs[:-0]` is empty
  (`Summary.NothingWithoutWindow`). The input budget counts the lines of a transcript but not the line breaks between
  them, so the text fed can exceed it; `Summary.FedWithinBudgetIff` says for which settings it can.
* A watermark outlives every token exactly when an access token lives at most 61 seconds longer than a refresh token.
* `revoke_all_user_tokens` reads the clock before it awaits the store. Of two overlapping calls the one with the
  earlier clock can store last, and a revoked token is accepted again (`Tokens.LateStoreRevives`); the watermark stored
  last decides (`Tokens.LastMarkDecides`).
* Two overlapping refreshes of one token can both succeed (`Tokens.OverlapExchangesTwice`); any number of them do
  exactly if none checks after another one's store (`Tokens.AllSucceedIff`).
* Repeating a write changes nothing except when it makes an `_edited` copy of a user's upload: each repetition makes
  another copy, and from the second on every write to the copy's name fails (`FileStore.CopyBlocksNameIff`). The
  prune runs before the new snapshot is flushed, so up to eleven snapshots are stored, not ten.
* A missing tool title and the title "None" share their keys; the collector agrees with its specification at every
  prefix exactly when a log does not have both. With both it can hold two records in flight with one title
  (`CallLog.TwoInFlight`).
* The scheduler's comment says that a reclaimed row is not fired again by the same tick. The due query runs
  without a flush and still finds it (`Scheduler.ReclaimedStillFires`).
* An edit that changes a task's next run, computes it before a tick and commits it after the tick makes the scheduler
  fire an occurrence twice: two overlapping toggles of a disabled task do (`Scheduler.LateEditRepeats`). An edit that
  computes the next run it had loaded writes none, and is harmless however late it commits.
* The pool loses a client, still running, in exactly these events: a cancelled `get` or warm spawn; a `get` that files
  its client over another one; a refill whose deque `close_all` has cleared away; and `close_all` itself, which forgets
  a client that was filed while it stopped others, and one appended to a deque it had drained. The fourth happens
  without cancellation, refills or two calls for one key (`PoolRuns.GetDuringCloseLoses`).
* `drop` forgets the last use of a key, and filing the respawned client does not note one. After a respawn the key is
  not idle for `evict_idle`, however long it rests, until its next `get`.
* A negative chunk overlap leaves gaps between the windows (`Chunking.NegativeOverlapLeavesGap`).
* `confine_to_dir` rejects every name when the base is the root directory.
* Trimming fails with a division by zero on empty fields under a negative budget.

## Model

| member | source | states |
|---|---|---|
| LockTable.LookupSpec | backend/agent_runner/runner.py:770-786 | for every table and cap: the lock returned is the table's entry, an entry whose lock is held survives so later lookups give the same lock, nothing is invented, and the table is within the cap unless its oldest entry is held |
| LockTable.InUseSurvivesIff | backend/agent_runner/runner.py:781-785 | a lookup keeps every lock that is held or waited for exactly when the eviction loop reaches none of them |
| RunnerLocks.EnteredStaysIff | backend/agent_runner/runner.py:681-706 | while every lock held or waited for is its process's entry for the conversation, a step keeps this exactly if it is not a lookup whose eviction loop reaches the entry of a lock in use |
| RunnerLocks.RunStaysEntered | backend/agent_runner/runner.py:681-786 | so does any run without such a lookup |
| RunnerLocks.OneTurnPerConversation | backend/agent_runner/runner.py:681-690 | then two coroutines of one process and conversation hold or await one lock, and never both hold it |
| RunnerLocks.TurnsExcludeEachOther | backend/agent_runner/runner.py:681-786 | so in every run from an initial world without such a lookup, two turns of one process and conversation never hold their lock at once |
| RunnerLocks.TwoTurnsAtOnce | backend/agent_runner/runner.py:770-786 | a run from an initial world after which two coroutines of one process hold different locks for one conversation |
| ConvLocks.ConvLockTable.GetConvLock | backend/agent_runner/runner.py:770-786 | the table after the call is the specified one; a new lock is made only for a conversation without one |
| ConvLocks.ConvLockTable.EvictIdle | backend/agent_runner/runner.py:781-785 | the loop drops oldest unlocked entries until the cap or a held entry |
| RunnerLease.MutualExclusion | backend/agent_runner/runner.py:691-709 | over every run of any number of instances, two coroutines holding one conversation include one past its lease's time to live, waiting for a slot included |
| RunnerLease.LateReleaseSparesSuccessor | backend/agent_runner/runner.py:810-822 | a late release never removes the lease of another coroutine that holds its own |
| RunnerLease.TimelyReleaseFrees | backend/agent_runner/runner.py:762-764 | a release in time frees the conversation at once |
| RunnerLease.PollOutcome | backend/agent_runner/runner.py:788-808 | a poll gets the lease, for a whole time to live, exactly if no live lease of its own conversation is stored and the process goes on; it gives up exactly on shutdown, or past the deadline with the lease taken; else nothing changes |
| RunnerLease.PollTouchesOwn | backend/agent_runner/runner.py:798-804 | no poll touches another conversation's lease or another coroutine |
| RunnerLease.PollAfterReleaseGets | backend/agent_runner/runner.py:788-822 | the next poll after a release in time gets the lease, from any process |
| RunnerLease.StepKeepsInv | backend/agent_runner/runner.py:788-808 | every step of the protocol keeps leases and holders matched |
| RunnerPlaces.InExactlyOnePlace | backend/agent_runner/runner.py:615-632 | in every reachable world each submitted turn is in exactly one of stream, pending, in flight, finished, dead letters, lost |
| RunnerPlaces.NothingLost | backend/agent_runner/runner.py:699-757 | while appends succeed nothing is lost |
| RunnerPlaces.ExecutedAtMost | backend/agent_runner/runner.py:721-757 | a turn is executed at most `MAX_RETRIES + 1` times, lease timeouts or not |
| RunnerPlaces.AttemptCountsExecutions | backend/agent_runner/runner.py:696-736 | the counter in a waiting payload is the number of its failed executions, so a requeue keeps it |
| RunnerPlaces.DeadLetterMeans | backend/agent_runner/runner.py:745-761 | a dead-lettered turn was executed exactly `MAX_RETRIES + 1` times and its message does not stay "streaming" once it is closed, unless the database refused |
| RunnerPlaces.StepKeepsClosing | backend/agent_runner/runner.py:824-855 | every step keeps each dead-lettered turn closed, being closed, or refused |
| RunnerPlaces.StepMoves | backend/agent_runner/runner.py:696-761 | every step keeps every submitted turn in exactly one place, with its attempts counted |
| RunnerResources.BoundedConcurrency | backend/agent_runner/runner.py:709-709 | never more than `MAX_CONCURRENT` coroutines of a process are inside the semaphore |
| RunnerResources.IdleHoldsNothing | backend/agent_runner/runner.py:762-768 | a coroutine that has returned or sleeps before a retry holds no lease and no turn lock, and waits for none |
| RunnerResources.QuietWorldIsFree | backend/agent_runner/runner.py:762-768 | when all coroutines are idle all slots are free, all turn locks open, and no lease is live |
| RunnerProgress.NoDeadlock | backend/agent_runner/runner.py:681-768 | in every reachable world each coroutine that has not returned and does not sleep can move, or waits for one that can, or for its turn behind one that waits for a slot of one that can |
| RunnerProgress.TurnsQueueUp | backend/agent_runner/runner.py:685-690 | a turn takes its lock only if nobody holds or awaits it, else it queues up last |
| RunnerProgress.FirstWaiterIsNext | backend/agent_runner/runner.py:685-690 | exactly the first in the queue takes an open lock |
| RunnerProgress.FailureRetriesIff | backend/agent_runner/runner.py:722-745 | a failure is retried exactly while fewer than three retries were made |
| RunnerProgress.RetryRests | backend/agent_runner/runner.py:722-745 | a retry is appended with its count, to rest 2, 4 or 8 seconds |
| RunnerProgress.AppendsLand | backend/agent_runner/runner.py:698-752 | a payload whose append succeeds is in the stream or among the dead letters, else it is lost |
| RunnerProgress.MarkCloses | backend/agent_runner/runner.py:824-846 | a dead letter's message stops streaming exactly if the database takes the change |
| RunnerProgress.LeavesInOrder | backend/agent_runner/runner.py:759-768 | slot, lease and turn lock are given back in this order, and only then a retrying coroutine sleeps its delay |
| RunnerResources.StepKeepsInv | backend/agent_runner/runner.py:685-709 | every step keeps slots counted and each turn lock with at most one holder and a queue of waiters |
| RedisModel.RedisServer.RunIncrScript | backend/app/core/ratelimit.py:41-47 | the increment script: a dead or missing counter starts at 1 with a new expiry, a live one keeps its expiry |
| RateLimit.CallIsItsEvents | backend/app/core/ratelimit.py:95-155 | a call that no other interrupts is its one or two hits: same store, same answer |
| RateLimit.EventOnKey | backend/app/core/ratelimit.py:95-155 | a hit runs the script at most once on a given counter, and a second hit only follows a first one that was allowed |
| RateLimit.SendAllowedIff | backend/app/core/ratelimit.py:95-121 | a send is let through exactly while the user's and the platform's live counts are below their caps |
| RateLimit.SendCounts | backend/app/core/ratelimit.py:95-121 | it counts for the user always, for the platform exactly if the user is below the cap |
| RateLimit.LoginAllowedIff | backend/app/core/ratelimit.py:124-155 | an attempt is let through exactly while the counts of its address and its account, where given, are below their limits |
| RateLimit.LoginCounts | backend/app/core/ratelimit.py:124-155 | it counts for the address always, for the account exactly if the address is below its limit |
| RateLimit.SameAccountIff | backend/app/core/ratelimit.py:142-155 | names share a counter exactly if they differ only in letter case and the blanks around them |
| RateLimit.PotentialPaysForGrant | backend/app/core/ratelimit.py:73-77 | each grant in an interval uses up one unit of what the counter and its next windows can still grant there |
| RateLimit.WindowBound | backend/app/core/ratelimit.py:73-77 | with limits at or below L, at most 2L hits in any interval of window length, in every interleaving of the hits of all calls |
| RateLimit.LifetimeBound | backend/app/core/ratelimit.py:41-47 | at most L hits during one key's life, those already made included |
| RateLimit.GlobalSendBound | backend/app/core/ratelimit.py:95-121 | all users together send at most twice the global cap in any 60 seconds, whatever their own limits and however the two hits of their calls interleave |
| RateLimit.LoginIpBound | backend/app/core/ratelimit.py:124-172 | one address gets past its guard at most twice its limit per window, clears or not |
| RateLimit.ClearsChangeNothing | backend/app/core/ratelimit.py:158-172 | what one address gets in any interval is the same with all clears taken out of the run |
| RateLimit.ClearLeavesIpCounter | backend/app/core/ratelimit.py:158-172 | a clear touches no counter but an account's |
| RateLimit.ZeroWindowAdmitsAll | backend/app/core/ratelimit.py:133-142 | a window of 0 seconds never denies |
| RateLimit.RateLimiter.Hit | backend/app/core/ratelimit.py:73-77 | the store after the call, whether it is allowed and what remains |
| RateLimit.RateLimiter.AllowSend | backend/app/core/ratelimit.py:95-121 | the user counter first, the global one only if that allows |
| RateLimit.RateLimiter.CheckLogin | backend/app/core/ratelimit.py:124-155 | address first, account next, and which of them denied |
| RateLimit.RateLimiter.ClearLogin | backend/app/core/ratelimit.py:158-172 | only the account counter is deleted |
| Tokens.CreatedIsGenuine | backend/app/core/security.py:38-57 | `exp` is at most `iat` plus the lifetime, though the clock is read twice |
| Tokens.BlacklistOutlivesToken | backend/app/services/auth_service.py:107-110 | the entry's expiry is not before the token's |
| Tokens.BlacklistLifetime | backend/app/services/auth_service.py:107-110 | and it is gone with what was left of the token's life when it was computed, a second at least |
| Tokens.BlacklistedForever | backend/app/services/auth_service.py:115-129 | a blacklisted token is rejected at every later time, whatever revocations follow |
| Tokens.WatermarkedForever | backend/app/services/auth_service.py:132-140 | so is a token issued before a watermark, when access tokens live at most 61 seconds longer than refresh tokens and no older watermark is stored later |
| Tokens.LastMarkDecides | backend/app/services/auth_service.py:132-140 | after any writes, in whatever order overlapping calls store, an unexpired token is rejected exactly if it is blacklisted or the watermark stored last is later than its `iat` |
| Tokens.LateStoreRevives | backend/app/services/auth_service.py:132-140 | two overlapping revocations that store out of order let a revoked token pass again |
| Tokens.WatermarkOutlivesIff | backend/app/services/auth_service.py:132-140 | exactly those lifetimes make every watermark outlive the tokens before it |
| Tokens.ExchangedAtMostOnce | backend/app/services/auth_service.py:85-112 | in any run of non-overlapping calls, from any store, a refresh token is exchanged at most once |
| Tokens.NeverExchangedAgain | backend/app/services/auth_service.py:95-97 | a blacklisted token is never exchanged in any further run |
| Tokens.LogoutEndsExchange | backend/app/services/auth_service.py:115-129 | a token given to a logout before it expires is never exchanged afterwards |
| Tokens.AllSucceedIff | backend/app/services/auth_service.py:93-110 | any number of refreshes of one acceptable token, their checks and stores interleaved anyhow, all succeed exactly if no check follows another one's store |
| Tokens.OverlapExchangesTwice | backend/app/services/auth_service.py:93-110 | two that both check before either stores both succeed, in a run from an empty store |
| Auth.AuthService.TokenRevocationState | backend/app/core/redis.py:87-102 | the two answers decide for every token of that id and user whether it is revoked, a token without an id included |
| Auth.AuthService.BlacklistJti | backend/app/core/redis.py:38-39 | every token of that id that expires within the stored lifetime, of at least a second, is rejected from now on at every time; no other token is affected |
| Auth.AuthService.UserFromAccessToken | backend/app/deps.py:26-54 | accepted exactly for a verified, unexpired, unrevoked access token of an active user |
| Auth.AuthService.RefreshTokens | backend/app/services/auth_service.py:85-112 | succeeds exactly for an acceptable refresh token, which is then rejected, and issues a pair of the right kinds |
| Auth.AuthService.Logout | backend/app/services/auth_service.py:115-129 | each decodable token is blacklisted, others are skipped |
| Auth.AuthService.RevokeAllUserTokens | backend/app/services/auth_service.py:132-140 | every token of the user issued in an earlier second is rejected at every later time, a newer one only if blacklisted |
| Auth.LogoutRejects | backend/app/services/auth_service.py:115-129 | after a logout each token it was given is rejected from then on |
| Confirmation.NoLostWakeup | backend/app/core/redis.py:309-351 | in every interleaving a waiter in its loop whose answer is stored has a notification queued or a responder still to publish |
| Confirmation.ReturnsGivenAnswer | backend/app/core/redis.py:322-336 | an answer returned was given for that very request |
| Confirmation.PollsReturnAnswer | backend/app/core/redis.py:329-336 | the waiter's own next polls return the stored answer and remove its key, whatever is queued ahead |
| Confirmation.AnsweredWaiterReturns | backend/app/core/redis.py:309-351 | the whole handshake: a responder stores and publishes, and the polling waiter's own next steps return that very choice |
| Confirmation.EarlyAnswerReturns | backend/app/core/redis.py:322-326 | an answer there before the wait is returned after the first look and its key removed |
| Confirmation.WaitBegins | backend/app/core/redis.py:320-329 | otherwise the wait polls with its whole timeout before it |
| Confirmation.TimesOutIff | backend/app/core/redis.py:328-339 | it gives up exactly from its deadline on, and polls exactly before |
| Confirmation.CancelledIff | backend/app/core/redis.py:330-338 | a turn of the loop without a notification ends the wait exactly if a watched flag is set |
| Confirmation.StaleNoteGoesOn | backend/app/core/redis.py:332-338 | a notification whose answer is gone leaves the waiter in its loop |
| Confirmation.AnswerLives | backend/app/core/redis.py:347-351 | a stored answer can be read for exactly 300 seconds |
| Confirmation.StepKeepsInv | backend/app/core/redis.py:309-351 | every step of waiters, responders, cancellation and time keeps this |
| Summary.Excerpt | backend/agent_runner/runner_conversation_summary.py:32-55 | an excerpt is never empty and at most one character over the limit |
| Summary.ExcerptIff | backend/agent_runner/runner_conversation_summary.py:32-55 | exactly which messages are dialogue, how each role is labelled and what is shown of the text |
| Summary.GatherIsPrefix | backend/agent_runner/runner_conversation_summary.py:93-102 | a batch is all the dialogue of an initial part of what is left, ending at its end |
| Summary.GatherWithinBudget | backend/agent_runner/runner_conversation_summary.py:98-101 | a batch fits the character budget |
| Summary.GatherTakesEnough | backend/agent_runner/runner_conversation_summary.py:89-104 | with room for n longest lines, n waiting messages are taken |
| Summary.RunKeepsCover | backend/agent_runner/runner_conversation_summary.py:126-163 | one run extends the covered dialogue by exactly its batch, cursor and count included |
| Summary.CoveredExactlyOnce | backend/agent_runner/runner_conversation_summary.py:58-164 | over any growing history and any runs the stored batches are exactly the dialogue of an initial part: once each, in order, none of the protected newest; the count is its length |
| Summary.NoDigestLost | backend/agent_runner/runner_conversation_summary.py:138-163 | over any runs the stored summary is the digests of the runs that stored a batch, in order and joined by the addendum, and the token estimate their sum |
| Summary.RunMakesProgress | backend/agent_runner/runner_conversation_summary.py:126-148 | with threshold messages waiting and room for them, a working run advances by at least the threshold; its lines fit the budget, and the text fed has one line break less than lines on top |
| Summary.FedWithinBudgetIff | backend/agent_runner/runner_conversation_summary.py:89-101 | exactly the settings under which every text fed to the summariser is within the input budget |
| Summary.TwoLinesOverrun | backend/agent_runner/runner_conversation_summary.py:98-101 | two lines that fill a budget of 10 characters are fed as a text of 11 |
| Summary.NothingWithoutWindow | backend/agent_runner/runner_conversation_summary.py:78-78 | with a recent window of 0 no run over any messages stores anything, and with a positive threshold none changes the row |
| Summary.ProgressIff | backend/agent_runner/runner_conversation_summary.py:78-78 | progress is guaranteed exactly when the recent window is not 0 |
| Summary.DropCovered | backend/agent_runner/runner_conversation_summary.py:81-87 | what remains after the cursor, or all if it is not found |
| Summary.TakeWithinBudget | backend/agent_runner/runner_conversation_summary.py:89-104 | the loop gathers the specified batch and its last id |
| Summary.LoadTranscript | backend/agent_runner/runner_conversation_summary.py:58-104 | transcript, last id and count of the specified batch |
| Summary.SummaryStore.HandleConversationSummary | backend/agent_runner/runner_conversation_summary.py:107-164 | the stored row after the run, for any summariser, is the one all these theorems are about |
| Chunking.WindowsAreSlices | backend/app/services/rag_service.py:87-94 | the windows are the stripped, non-empty slices at the starts the loop visits |
| Chunking.WindowsCover | backend/app/services/rag_service.py:87-94 | with a positive size and no negative overlap every position is in a slice that is blank or one of the windows |
| Chunking.NegativeOverlapLeavesGap | backend/app/services/rag_service.py:87-94 | with a negative overlap the character after the first window can be any other and the windows stay the same |
| Chunking.ChunksKeepText | backend/app/services/rag_service.py:75-102 | every visible character of the text is in the chunks, in order |
| Chunking.OnlyFirstShort | backend/app/services/rag_service.py:95-102 | only the first chunk can be under 30 characters |
| Chunking.SlideWindows | backend/app/services/rag_service.py:88-94 | the loop yields the stripped, non-empty windows |
| Chunking.MergeFragments | backend/app/services/rag_service.py:95-101 | the loop joins short fragments to the chunk before |
| Chunking.SplitIntoChunks | backend/app/services/rag_service.py:75-102 | the method computes the specified chunks |
| Sections.TitleIsVisible | backend/app/services/rag_service.py:146-149 | a heading's title is visible and at most 200 characters, so it is never replaced by nothing |
| Sections.BreaksAre | backend/app/services/rag_service.py:121-121 | the ten characters a line ends at |
| Sections.LineThenRest | backend/app/services/rag_service.py:121-145 | a line ends at its first break, carriage return and line feed being one, and the rest is split likewise |
| Sections.HeadingIff | backend/app/services/rag_service.py:46-46 | exactly which lines are headings, and that the title is the clipped rest after the hashes and the blanks |
| Sections.GroupedKeepsLines | backend/app/services/rag_service.py:145-153 | grouping by headings keeps every body line, in order |
| Sections.LineInItsSection | backend/app/services/rag_service.py:145-153 | the i-th line, if no heading, is in the section numbered by the headings before it, as many places down as lines since the last of them, and the section is titled by that heading |
| Sections.PieceTitleIsNearestHeading | backend/app/services/rag_service.py:137-149 | every piece of that section names the nearest heading before the line as its parent |
| Sections.OnlyFirstPieceHasTitle | backend/app/services/rag_service.py:125-154 | in the pieces of a text with headings, those of a section with a visible body stand after all pieces of the sections before; they are its chunks, exactly the first of them under the title |
| Sections.BodyTextKept | backend/app/services/rag_service.py:105-154 | every visible character of a body line lands in some piece, in order, headings or not |
| Sections.HeadingLoop | backend/app/services/rag_service.py:125-153 | the loop with its buffer and flags equals the grouping specification |
| Sections.Flush | backend/app/services/rag_service.py:130-143 | a flush emits the pieces of the buffered section and sets the flag |
| Sections.SplitIntoStructuredChunks | backend/app/services/rag_service.py:105-154 | the method computes the specified pieces |
| ChunkIndex.IndexAgrees | backend/app/services/rag_service.py:190-270 | a positive count means the rows are the pieces of the content, numbered from 0; a zero count leaves the table alone unless the content is blank; other sources are untouched |
| ChunkIndex.EmbeddingOfRow | backend/app/services/rag_service.py:190-270 | unchanged texts keep their embeddings, otherwise row k gets the k-th vector |
| ChunkIndex.NothingIndexedIff | backend/app/services/rag_service.py:190-270 | nothing is reported exactly if indexing is off, the content is blank, or its texts changed and the encoder failed |
| ChunkIndex.IndexIsIdempotent | backend/app/services/rag_service.py:222-240 | indexing again changes nothing, whatever the encoder answers |
| ChunkIndex.VisibleTextHasPieces | backend/app/services/rag_service.py:218-220 | content that is not blank always has pieces |
| ChunkIndex.Index.IndexContent | backend/app/services/rag_service.py:190-270 | the table and count after the call |
| ChunkIndex.Index.Patch | backend/app/services/rag_service.py:233-238 | only the metadata of the numbered rows changes |
| ChunkIndex.Index.Replace | backend/app/services/rag_service.py:255-266 | the source's rows are replaced by one for each piece |
| RankFusion.VectorRow | backend/app/services/rag_service.py:396-400 | one more vector row keeps the table exact, with the newer hit |
| RankFusion.KeywordRow | backend/app/services/rag_service.py:401-405 | one more keyword row keeps it exact, with the hit already there |
| RankFusion.SortSpec | backend/app/services/rag_service.py:407-407 | the ranking is a descending, stable permutation |
| RankFusion.AnswerIsRanked | backend/app/services/rag_service.py:394-410 | min(k, distinct keys) hits with distinct keys, in non-increasing score, each score the exact sum of 1/(60+rank) |
| RankFusion.AheadInBothIsAhead | backend/app/services/rag_service.py:394-410 | with unique keys in each list, a hit ahead of another in both is ahead of it in the answer |
| RankFusion.Fuse | backend/app/services/rag_service.py:394-410 | the two loops build the exact table and answer from it |
| FileStore.AgentSparesUploads | backend/agent_runner/storage.py:99-154 | an agent's write leaves every user-uploaded row as it is |
| FileStore.RunSparesUploads | backend/agent_runner/storage.py:99-154 | so does any run of agents' writes |
| FileStore.OneVersionPerChange | backend/agent_runner/storage.py:169-219 | a row's version grows by one exactly for an effective change and otherwise the row is unchanged |
| FileStore.AnswerHoldsContent | backend/agent_runner/storage.py:61-219 | the row answered holds the written content up to blanks around it; a blank content leaves an existing file alone; an existing row keeps its creator |
| FileStore.FailsIffAmbiguous | backend/agent_runner/storage.py:68-105 | a write fails exactly if several rows have the name, and then changes nothing |
| FileStore.NewNameIsAdded | backend/agent_runner/storage.py:156-168 | for a name no row has, one row is added with that name, creator and version 1, and answered |
| FileStore.OnlyRowIsAnswered | backend/agent_runner/storage.py:51-219 | the only row of a name is answered as it is for a blank or unchanged content, copied for an agent's change of an upload, and otherwise given its next version |
| FileStore.SnapshotMade | backend/agent_runner/storage.py:194-215 | a new version of a row that was not empty keeps what it held under the replaced number and the replacing agent, and drops exactly those with ten newer ones |
| FileStore.EditedNameIs | backend/agent_runner/storage.py:130-131 | the suffix goes before the last dot, or to the end of a name without one |
| FileStore.RepeatChangesNothingIff | backend/agent_runner/storage.py:61-219 | repeating a write changes nothing exactly when it makes no edited copy |
| FileStore.OriginalNameRecovered | backend/agent_runner/storage.py:127-128 | the original's name can be read off its copy, so copies of different files have different names |
| FileStore.CopyBlocksNameIff | backend/agent_runner/storage.py:92-98 | a copy makes its name ambiguous exactly when a file of that name is there already |
| FileStore.AmbiguousForever | backend/agent_runner/storage.py:92-98 | every write under an ambiguous name fails and changes nothing, and no write makes it unambiguous again |
| FileStore.SaveKeepsInv | backend/agent_runner/storage.py:194-219 | one write keeps every snapshot equal to the content its row had at that number, the ten newest non-empty versions retained, and at most eleven stored |
| FileStore.RunKeepsInv | backend/agent_runner/storage.py:51-219 | so does any sequence of writes |
| FileStore.SnapshotsHold | backend/agent_runner/storage.py:51-219 | from uploads and scaffolding on, after any writes: snapshots true, the ten newest non-empty versions stored, at most eleven in all |
| FileStore.FewLeft | backend/agent_runner/storage.py:205-215 | pruning leaves at most ten |
| FileStore.WorkspaceStore.SaveFile | backend/agent_runner/storage.py:51-219 | rows, snapshots and answer of one write, under the normalised path |
| FileStore.WorkspaceStore.Snap | backend/agent_runner/storage.py:196-215 | the outdated committed snapshots go, the new one stays |
| CallLog.LastOfRunMeaning | backend/agent_runner/call_log.py:47-81 | a run ends at the first terminal event of its title, or goes on to the title's last event |
| CallLog.OpenMeaning | backend/agent_runner/call_log.py:83-89 | a title has an open run exactly when its last event is not terminal |
| CallLog.CollectorMatches | backend/agent_runner/call_log.py:47-92 | without colliding titles the collector holds one record per specified run |
| CallLog.RecordsMatchIff | backend/agent_runner/call_log.py:47-130 | it agrees with the specification at every prefix exactly when no missing title meets the title "None" |
| CallLog.CollisionLosesRecord | backend/agent_runner/call_log.py:90-92 | at the first collision the new run gets no record of its own |
| CallLog.NeverTwoInFlight | backend/agent_runner/call_log.py:83-92 | without colliding titles the collector never holds two records in flight with one title |
| CallLog.TwoInFlight | backend/agent_runner/call_log.py:83-92 | with them it can: a log of three events after which it does |
| CallLog.StepKeepsDistinctIff | backend/agent_runner/call_log.py:47-92 | an event of a log without ids makes two records in flight share a title exactly when, untitled and not terminal, it takes over by its key a record whose title another record in flight has |
| CallLog.NeverTwoInFlightIff | backend/agent_runner/call_log.py:47-92 | at no point of a log without ids are there two exactly if no event does so |
| CallLog.UsageIsIndependent | backend/agent_runner/call_log.py:94-112 | usage events do not disturb the tool records |
| CallLog.CallsAreMeasured | backend/agent_runner/call_log.py:95-112 | a model call is measured from the event before it, or from the turn's start |
| CallLog.CallCollector.OnToolCall | backend/agent_runner/call_log.py:47-81 | the record of the event's key is made or advanced, and the last event noted |
| CallLog.CallCollector.KeyForTitle | backend/agent_runner/call_log.py:83-92 | the key in flight found by the backward scan, or the next new one |
| CallLog.CallCollector.OnUsage | backend/agent_runner/call_log.py:95-112 | one more model call, measured from the last event |
| CallLog.CallCollector.Records | backend/agent_runner/call_log.py:115-130 | tool records in order of first sight, then model calls |
| SessionPool.HitServes | backend/agent_runner/session_pool.py:239-250 | a hit returns a client spawned for the requested profile whose session was requested with the given servers |
| SessionPool.KeysDifferIff | backend/agent_runner/session_pool.py:239-239 | two sessions share a key only if conversation and namespace are the same, conversation ids having no colon |
| SessionPool.KeyIsItsOwn | backend/agent_runner/session_pool.py:364-388 | dropping by a key drops the client of that key |
| SessionPool.DroppedKeeps | backend/agent_runner/session_pool.py:364-380 | dropping keeps every client in one place and loses none |
| SessionPool.BegunKeeps | backend/agent_runner/session_pool.py:239-265 | so does a mismatch or a dead client, whose key is emptied |
| SessionPool.CalledKeeps | backend/agent_runner/session_pool.py:239-265 | so does the start of a call, which serves it on a hit; the key has a noted use afterwards exactly on a hit or if it was empty |
| SessionPool.WarmTakenKeeps | backend/agent_runner/session_pool.py:272-295 | so does taking a warm client of the profile, or stopping a dead one |
| SessionPool.SpawnedKeeps | backend/agent_runner/session_pool.py:298-308 | so does a cold spawn |
| SessionPool.EndedKeeps | backend/agent_runner/session_pool.py:309-357 | an error stops the client and loses none; a cancellation loses exactly the one in hand |
| SessionPool.FinishedKeeps | backend/agent_runner/session_pool.py:358-362 | the filed client serves the call; only a running client overwritten by it is lost |
| SessionPool.FillBegunKeeps | backend/agent_runner/session_pool.py:186-197 | starting a refill or a warm-up spawn keeps every client in one place |
| SessionPool.FillSpawnsIff | backend/agent_runner/session_pool.py:186-197 | a refill spawns exactly while its deque has fewer clients than the target, a warm-up step always |
| SessionPool.FillEndedKeeps | backend/agent_runner/session_pool.py:197-201 | the spawned client joins its deque, and is lost only if that was cleared away |
| SessionPool.NextStoppedKeeps | backend/agent_runner/session_pool.py:391-392 | `close_all` stopping one client it listed loses none, and stops it even if it was lost meanwhile |
| SessionPool.ClearedKeeps | backend/agent_runner/session_pool.py:393-396 | emptying the maps loses exactly the clients still filed under a key and never told to stop |
| SessionPool.DrainedKeeps | backend/agent_runner/session_pool.py:398-405 | a drain up to its next await loses none, unless it comes to its end: then exactly those appended to a deque it had passed |
| SessionPool.ClosedOnKeeps | backend/agent_runner/session_pool.py:390-406 | each piece of `close_all` between two awaits keeps every client in one place and loses exactly these |
| SessionPool.GoesOnClosing | backend/agent_runner/session_pool.py:390-406 | left alone, each piece only stops pooled clients, keeps the others where they are, and leaves less to do |
| PoolRuns.StepKeeps | backend/agent_runner/session_pool.py:186-406 | every piece of code between two awaits keeps each client in one place, and loses exactly a cancelled, an overwritten, an orphaned one, and those `close_all` forgets |
| PoolRuns.LostExactly | backend/agent_runner/session_pool.py:186-406 | after any run each client is in exactly one place, and lost are exactly those its steps lost and did not stop after all |
| PoolRuns.NoneLost | backend/agent_runner/session_pool.py:186-406 | in every run with same-key calls serialised, no cancellation, and no refill, filing or append while `close_all` runs, each spawned client is always at one key, in one deque, in one running call, or stopped |
| PoolRuns.FromNewPool | backend/agent_runner/session_pool.py:186-406 | from a new pool on, any run loses exactly the toll of its steps, and an orderly one nothing |
| PoolRuns.GetDuringCloseLoses | backend/agent_runner/session_pool.py:390-396 | a run in which nothing but a filing during `close_all` happens, and the client is lost |
| PoolRuns.NoUseUntilBegin | backend/agent_runner/session_pool.py:239-240 | a key without a noted last use gets none in any run before its next `get` |
| SessionPool.Pool.Begin | backend/agent_runner/session_pool.py:239-265 | a hit returns the key's client and changes only its last use; otherwise the key is emptied and its client stopped |
| SessionPool.Pool.TakeWarm | backend/agent_runner/session_pool.py:267-295 | without MCP servers the oldest warm client of the profile is taken, or stopped if dead; else nothing changes |
| SessionPool.Pool.Spawn | backend/agent_runner/session_pool.py:297-308 | a new client of the call's profile is in the call's hand |
| SessionPool.Pool.End | backend/agent_runner/session_pool.py:316-319 | the call ends and its client is stopped, or lost by a cancellation |
| SessionPool.Pool.Finish | backend/agent_runner/session_pool.py:358-362 | client, profile and servers are filed under the key and the client returned |
| SessionPool.Pool.Get | backend/agent_runner/session_pool.py:219-362 | a whole call: it succeeds exactly on a hit, or with a live warm or a started client and a resumed or created session; it answers a session id exactly for a created one; on success the client serves the request, on an error the key is empty, nothing is in hand, nothing is lost; a respawned key has no noted use |
| SessionPool.Pool.Acquire | backend/agent_runner/session_pool.py:267-319 | a call without servers takes the oldest warm client of its profile if that lives, any other starts a new one; none exactly if that fails |
| SessionPool.Pool.Establish | backend/agent_runner/session_pool.py:321-362 | exactly if resumed or created, the client is filed, and the answer names a created session; else it is stopped |
| SessionPool.Pool.BeginFill | backend/agent_runner/session_pool.py:186-197 | a spawn starts unless a refill finds its deque full |
| SessionPool.Pool.EndFill | backend/agent_runner/session_pool.py:197-201 | the client joins its profile's deque unless that was cleared away |
| SessionPool.Pool.Warmup | backend/agent_runner/session_pool.py:168-181 | the spawn loops leave nothing in hand and lose nothing |
| SessionPool.Pool.Drop | backend/agent_runner/session_pool.py:364-380 | all four maps forget the key and its client is stopped |
| SessionPool.Pool.EvictIdle | backend/agent_runner/session_pool.py:382-388 | exactly the keys with a noted last use before the cutoff are dropped; a key without one stays |
| SessionPool.Pool.GoOnClosing | backend/agent_runner/session_pool.py:390-406 | the code from one await to the next: stop the next listed client, or empty the maps and go on draining |
| SessionPool.Pool.Drain | backend/agent_runner/session_pool.py:398-405 | the nested loops up to the next await, and the error of a dictionary that grew meanwhile |
| SessionPool.Pool.CloseAll | backend/agent_runner/session_pool.py:390-406 | a whole undisturbed close: every filed and warm client is stopped, what calls hold is left to them, all maps and deques are empty |
| Scheduler.SelectedEndsInFuture | backend/app/services/scheduled_service.py:184-227 | every selected row ends with a next run in the future and no other row changes |
| Scheduler.ReclaimedStillFires | backend/app/services/scheduled_service.py:175-207 | a reclaimed row that is due is fired by the same tick unless the limit cuts it off |
| Scheduler.TickFires | backend/app/services/scheduled_service.py:195-223 | a tick fires nothing of a disabled task, a deactivated owner or the future, and with at most 50 such tasks due every one that does not fail |
| Scheduler.TickOutcome | backend/app/services/scheduled_service.py:175-227 | how each row ends: fired, failed to fire, reclaimed only, or as it was |
| Scheduler.ReclaimedIff | backend/app/services/scheduled_service.py:179-193 | a fired task is reclaimed exactly more than two prompt timeouts later, if nothing writes it meanwhile |
| Scheduler.TaskTable.Tick | backend/app/services/scheduled_service.py:158-234 | the committed rows; each selected task that did not fail is fired once, for its committed next run, and nothing else; the count is theirs and at most 50 |
| Scheduler.TaskTable.Reclaim | backend/app/services/scheduled_service.py:184-193 | the reclaim loop |
| Scheduler.TaskTable.FireDue | backend/app/services/scheduled_service.py:209-227 | the loop over the due rows fires each once, failures apart |
| Scheduler.OccurrencesIncrease | backend/app/services/scheduled_service.py:158-272 | over any number of workers, with edits and toggles in between that leave the next run they loaded, or commit before their own next run is due, before the row is fired again, or during the tick that fires it, the occurrences fired for one row strictly increase |
| Scheduler.TicksExcludeEachOther | backend/app/services/scheduled_service.py:248-264 | in such runs at most one worker is between taking and releasing the lock |
| Scheduler.UndisturbedCommit | backend/app/services/scheduled_service.py:229-233 | written column by column, where it differs from what was read, a tick nobody disturbed commits the rows specified for one tick |
| Scheduler.PiecesAreTick | backend/app/services/scheduled_service.py:158-272 | the pieces of a worker's tick with nobody in between, the tasks fired in any order, make up one tick |
| Scheduler.EditWrites | backend/app/services/scheduled_service.py:116-155 | what an edit's commit does to each column of its row |
| Scheduler.TickIsBounded | backend/app/services/scheduled_service.py:195-207 | a tick deals with at most 50 rows |
| Scheduler.StepKeepsInv | backend/app/services/scheduled_service.py:116-272 | every timely step keeps what is still to be fired later than all that was fired |
| Scheduler.InTimeIsAhead | backend/app/services/scheduled_service.py:116-155 | a next run that an edit in time writes is later than all that was fired |
| Scheduler.EditIsSafeIff | backend/app/services/scheduled_service.py:116-155 | after an edit between two ticks all timely runs go on in order exactly if it disables the task, computed the next run it had loaded, or one later than all that was fired for the task, or finds the task disabled meanwhile with no edit under way that enables it as it is |
| Scheduler.LateEditRepeats | backend/app/services/scheduled_service.py:116-155 | a run from the start with two overlapping toggles, timely in every step but the late commit of one, that fires an occurrence twice |
| Scheduler.OverrunRepeats | backend/app/services/scheduled_service.py:251-264 | one, timely in every step but one in which a tick outlives its lock |
| Scheduler.CrashRepeats | backend/app/services/scheduled_service.py:210-234 | and one, timely in every step but one crash between firing and commit |
| ConfigMerge.MergeGet | backend/app/services/hermes_config_sync.py:57-65 | the merge key by key |
| ConfigMerge.OverrideLeafFound | backend/app/services/hermes_config_sync.py:57-65 | every leaf of the override is found at its path |
| ConfigMerge.UntouchedUnchanged | backend/app/services/hermes_config_sync.py:57-65 | every path the override does not touch reads as in the base |
| ConfigMerge.MergeIsIdempotent | backend/app/services/hermes_config_sync.py:57-65 | merging again changes nothing, order included |
| ConfigMerge.DeepMerge | backend/app/services/hermes_config_sync.py:57-65 | the recursive loop computes the merge |
| ConfigMerge.SyncIsIdempotent | backend/app/services/hermes_config_sync.py:68-86 | with no legacy key among the overrides a second sync changes nothing |
| ConfigMerge.SyncWritesIff | backend/app/services/hermes_config_sync.py:68-86 | a file is written exactly if it holds a dictionary or nothing to speak of |
| ConfigMerge.SyncGet | backend/app/services/hermes_config_sync.py:68-86 | a written file holds under each key what it held, the legacy key apart, with the overrides merged over it |
| ConfigMerge.SyncMovesEffort | backend/app/services/hermes_config_sync.py:29-86 | after a sync the effort is under `agent` and the old top-level key is gone |
| ConfigMerge.ConfigFile.Sync | backend/app/services/hermes_config_sync.py:68-86 | the file and the answer, for missing, unreadable, empty and non-dictionary files too |
| Paths.SafeRelativeIsNormal | backend/app/core/files.py:943-952 | the result is non-empty, relative, and has no empty, `.` or `..` component |
| Paths.FixedPointIff | backend/app/core/files.py:943-952 | it is a fixed point exactly when it neither begins nor ends with a blank |
| Paths.NormalFormIsContained | backend/app/core/files.py:976-988 | it passes the containment test under every base but the root, which rejects every name |
| Paths.ConfineIsContainment | backend/app/core/files.py:984-988 | for other bases the string test accepts exactly what is at or beneath the base, component by component |
| Paths.NormComponents | backend/app/core/files.py:943-952 | the loop of the path library equals the stack reading |
| Paths.SafeRelativePath | backend/app/core/files.py:943-952 | the method computes the specified name |
| Memory.TrimToBudget | backend/agent_runner/runner_memory.py:115-130 | prefixes that fit the budget; if anything was trimmed the first two fields keep exactly their proportional shares, and the budget is used up exactly or the last field is whole; when it divides by zero |
| Memory.BuildPlanSections | backend/agent_runner/runner_memory.py:181-200 | sections and notes belong to the conversations with lines, in order, all but the last whole, within a budget that is not negative, stopping only when it is used up |
| Memory.SectionGrows | backend/agent_runner/runner_memory.py:188-191 | a section is its title line and a line for each excerpt that is there and not empty, in order |
| Memory.ParsesIff | backend/agent_runner/runner_memory.py:104-112 | the summaries are used exactly if the array has one visible text for each section |
| Memory.WriteEpisodes | backend/agent_runner/runner_memory.py:382-392 | each section gets its own summary, or none does |

## Left out

- Redis, database and network outages, with their fail-open and fail-closed branches: one-branch facts.
- `handle` itself, the agents, the language model, embeddings, reranking and the SQL full-text search: a step that succeeds or fails, or a value.
- `_reclaim_stale` of entries that a running consumer has read and holds unacknowledged beyond the threshold: only those of stopped consumers are reclaimed. The source would append such an entry again, and both would run.
- Cancellation of `_run_task` while it runs, and crashes of a runner between acknowledgement and completion: the conservation claims are about runs without them.
- Subprocess handling, stdio framing, sandboxing, file watching, archives and office formats: process and file I/O.
- JWT signatures, password hashing and external identity providers: a token is its claims. The library's own check of `iat` is not modelled.
- Background summary runs of one conversation that overlap: the runner detaches them, so its turn lock does not order them; the cursor theorems are about runs one after the other.
- The monthly usage counter, metrics, logging and health probes: display only.
- Keys of Redis and of the call collector are terms instead of their texts; the rendering is injective but for the `None` title, which is modelled.
- RateLimit.LoginIpBound: needs a login window above 0 seconds; `ZeroWindowAdmitsAll` says what happens at 0. Lower-casing is ASCII only.
- `read_content`: with inline storage it is the content field.
- Object storage, sizes, kinds and message ids in `save_file`, and concurrent calls of it for one new name; uploads and edits made by other endpoints are the arbitrary starting state.
- Tool events that carry an id are followed by `CallCollector.OnToolCall`, but the record-per-run theorems are about logs without ids.
- Sessions: two `close_all` at once, its cancellation, and errors raised by `stop`. The stop inside `drop` is one step with it, and `evict_idle` is a sequence of drops.
- Creating and deleting scheduled rows, and a cron expression that no longer parses: next runs are only known to be later than the time they are computed from.
- ConfigMerge.ConfigFile.Sync: a YAML list is a scalar here; Python would turn a list of pairs into a dictionary. Reading back what was dumped gives the same tree.
- Paths.ConfineIsContainment: lexical; symbolic links are not resolved, and the base is taken as absolute.
- Memory.BuildPlanSections: messages are given as their excerpts; the filter that makes them is the one modelled in `Summary.Excerpt`, except for labels.
- Floating-point rounding in scores, ratios and durations.
