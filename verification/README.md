# Verified models of the backend's protocols and transformations

The Go backend keeps several small protocols whose safety depends on interleavings,
crashes and retries, and a number of text and money transformations that must keep a
meaning. This project models them in Dafny and proves what they promise.

- **Upstream token rotation.** One vault row per user holds the upstream refresh token, a
  rotation state and a version. Handlers of any number of processes rotate it, log users
  in, clear it and purge it; they can crash between any two statements, writes can land
  without being acknowledged, and the upstream can consume a token whose answer is lost.
  `Vault` has the SQL statements and the service class, `Rotation` the protocol of all
  interleavings, `RotationSafety` its theorems, `Arbiter` the code of the rotation shown to
  be a run of that protocol. `RefreshLocks` is the reference-counted per-user mutex.
- **Fulfillment jobs.** `Fulfillment` has the transactions, the service and the worker,
  `JobMachine` every interleaving of webhook deliveries, retries and the executions they
  start, for payloads with any number of components, `PaymentExecution` what one such
  execution makes of its job. `PackageGrant` follows what a retried package payment grants
  upstream, `GroupGrants` has the loops behind it, `GrantRace` what concurrent grants do to
  each other, `Renewal` the local subscription expiry, `RenewalRace` what concurrent
  purchases do to it.
- **QR-code login.** `ScanLogin` is the service, `ScanLoginMachine` every interleaving of
  its statements, with Confirm split into read, mint and compare-and-set.
- **Sliding-window limiter.** `Limiter` is the code with its in-place compaction and
  sweeping, `LimiterExact` the comparison with a limiter that forgets nothing.
- **Transformations and arithmetic.** `Rebind` (placeholders), `Escaping` (shell and TOML
  quoting), `Resp` (Redis framing), `Downloads` (latest version), `UsageStats` (cache-rate
  aggregation), `Wallet` and `WalletMachine` (card redemption), `Resend` (retries and path
  fallback of the proxy), `Checkout` (money rounding). `Decimal` is printing and reading of
  numbers, shared by several of them; `Common` holds small types.

State machines have one shape throughout: an `Action` datatype, `Enabled`, `Apply`, and
`After`, the state a sequence of actions leads to. A claim about every run is a claim about
every sequence of actions. Failures, clocks, randomness and upstream answers are
parameters of methods or actions. Where a promised property does not hold in general, the
module has a lemma with a concrete run or input that breaks it and a lemma that says
exactly when it holds; their names end in `Iff`.

## Model

| member | source | states |
|---|---|---|
| RotationSafety.NoReplayIff | backend/internal/httpapi/routes.go:1396-1462 | In every run, two sends of one refresh token have a refusal of it in between and a consumed token is never sent, exactly when captures insist on a refresh token and either the refresh lock is held or rows are never deleted |
| RotationSafety.Safe | backend/internal/sub2apiauth/service.go:435-570 | When every capture carries a refresh token, either the lock or the version check alone (without deletions) suffices for no replay |
| RotationSafety.LockedRun | backend/internal/httpapi/routes.go:1285-1308 | Under the lock and with captures that carry a refresh token, in every run a possibly consumed token never sits in a stable row and at most one thread is in the protocol |
| RotationSafety.RowLifetime | backend/internal/sub2apiauth/service.go:404-570 | Without the lock but within one row's lifetime, for captures with or without a refresh token: the version never decreases, the refresh token changes only with a version step, one thread at most owns an unresolved BeginRotation of the current version, late Reset, Mark and Complete change nothing |
| RotationSafety.CasRun | backend/internal/sub2apiauth/service.go:404-464 | The inductive invariant behind no replay without the lock, for captures that carry a refresh token: owners of unresolved rotations carry different tokens and know whether the row is still theirs |
| RotationSafety.ReplayWithoutLock | backend/internal/sub2apiauth/service.go:468-492 | The ABA run: a deleted and re-created row is at version 0 again and a late ResetRotation makes a consumed token stable |
| RotationSafety.ReplayWithoutGuard | backend/internal/httpapi/routes.go:2594-2600 | Without the refresh-token check of the capture paths, COALESCE makes a consumed token stable and it is sent again |
| RotationSafety.RiskyUntilRefused | backend/internal/httpapi/routes.go:1378-1392 | A sent token stays at risk in a run until the upstream refuses a request that carried it |
| RotationSafety.FreshSendsNeverReplay | backend/internal/httpapi/routes.go:1396-1462 | If every send carries a token not at risk, no run replays |
| RotationSafety.PairedIff | backend/internal/sub2apiauth/service.go:163-234 | In every run the row's access and refresh token were delivered together, by one capture or one answer, if and only if captures insist on a refresh token |
| RotationSafety.MixedPair | backend/internal/sub2apiauth/service.go:197-221 | Without that, a run in which COALESCE joins a new access token with the refresh token of another login |
| RotationSafety.TokensPresent | backend/internal/httpapi/routes.go:2594-2600 | In every run a row with a refresh token holds two tokens that are not blank |
| RotationSafety.BeginAlone | backend/internal/sub2apiauth/service.go:435-464 | Undisturbed, BeginRotation's check and write claim the row exactly when state, version and non-blank token are the expected ones |
| RotationSafety.ResetAlone | backend/internal/sub2apiauth/service.go:468-492 | Undisturbed, ResetRotation makes exactly a rotating row of that version and token stable |
| RotationSafety.MarkAlone | backend/internal/sub2apiauth/service.go:497-514 | Undisturbed, MarkRotationUncertain makes exactly such a row uncertain |
| RotationSafety.CompleteAlone | backend/internal/sub2apiauth/service.go:518-570 | Undisturbed, CompleteRotation installs the pair in exactly such a row, keeps the old token as previous, and sends a conflict on to the mark and a failure on to the next attempt |
| Arbiter.RotateUpstreamVaultLocked | backend/internal/httpapi/routes.go:1396-1462 | The call performs a run of the protocol and leaves other users' rows alone; it sends at most once, exactly when the row can rotate and BeginRotation was acknowledged; outcome and row are given for every failure and every answer; a success leaves the answer's access and refresh token, the old token as previous, the next version, and the answer's expiry and user where it has them |
| Arbiter.Resolve | backend/internal/httpapi/routes.go:1406-1461 | What becomes of the row after each answer: cleared on 401, 403 and a marked 400, given back on any other refusal, uncertain when nothing usable came, and otherwise the new pair exactly when a write of it landed |
| Arbiter.Persist | backend/internal/httpapi/routes.go:1449-1461 | Three attempts at CompleteRotation: success exactly when one is acknowledged before any unacknowledged one landed; the row ends completed exactly when one landed, otherwise rotating or uncertain |
| Arbiter.Refuse | backend/internal/httpapi/routes.go:1416-1429 | A definitely invalid token clears the vault or leaves the row; any other refusal is a run of ResetRotation |
| Arbiter.Begin | backend/internal/sub2apiauth/service.go:435-464 | From a row that can rotate, BeginRotation succeeds exactly when its read and write are acknowledged, and then the row is rotating at the loaded version |
| Vault.TokenVault.UpsertToken | backend/internal/sub2apiauth/service.go:163-234 | The row after a capture, column by column, for an existing and for a new row: the new access token, other columns replaced where given, the previous token kept on change, stable, version one higher or 0; other rows and failed writes change nothing |
| Vault.TokenVault.RefreshCredentialMatches | backend/internal/sub2apiauth/service.go:404-430 | True exactly for a row of that state and version holding that non-blank token |
| Vault.TokenVault.BeginRotation | backend/internal/sub2apiauth/service.go:435-464 | Succeeds, conflicts or fails exactly as the credential check and the write decide; only a stable row of that version becomes rotating |
| Vault.TokenVault.ResetRotation | backend/internal/sub2apiauth/service.go:468-492 | Only a rotating row of that version and token becomes stable again |
| Vault.TokenVault.MarkRotationUncertain | backend/internal/sub2apiauth/service.go:497-514 | Only a rotating row of that version and token becomes uncertain |
| Vault.TokenVault.CompleteRotation | backend/internal/sub2apiauth/service.go:518-570 | Only a rotating row of that version and token gets the new access token, the new refresh token, expiry and user where given, the old refresh token as previous and the next version; conflict exactly when the check says so |
| Vault.TokenVault.ClearVault | backend/internal/sub2apiauth/service.go:575-586 | Deletes exactly the user's row |
| RefreshLocks.RefreshLockSafe | backend/internal/httpapi/routes.go:1257-1279 | In every interleaving of any threads and users: one mutex object per user, at most one thread in its critical section, `refs` equal to the number of threads present, and a map entry exactly while that number is positive |
| RefreshLocks.RefinesUserMutex | backend/internal/httpapi/routes.go:1257-1279 | Every step behaves as one ideal mutex per user: locking only when nobody is inside, unlocking takes exactly the holder out, entering and leaving move nobody |
| RefreshLocks.RefreshLocks.Enter | backend/internal/httpapi/routes.go:1258-1268 | The first section under refreshMu is a step of the machine and returns the user's one mutex |
| RefreshLocks.RefreshLocks.Leave | backend/internal/httpapi/routes.go:1272-1277 | The second section is a step of the machine, dropping the entry with its last user |
| JobMachine.JobsSafe | backend/internal/fulfillment/service.go:168-276 | In every run of overlapping executions, each with any number of components: 0 <= retry_count <= maxRetries, one job per idempotency key, one event more than successful transitions |
| JobMachine.FinalStays | backend/internal/fulfillment/service.go:900-918 | Fulfilled and failed_terminal are absorbing in every such run |
| JobMachine.ResultsBoundedIff | backend/internal/fulfillment/service.go:430-489 | A number bounds the recorded results of a job in every run if and only if executions of a job do not overlap and it is at least maxRetries plus the number of components: maxRetries + 1 for one component |
| JobMachine.NoOverlapInv | backend/internal/httpapi/routes.go:7421-7524 | Without overlap a job that is not final has recorded exactly retry_count results and a final one at most maxRetries and one whole execution, and what an execution read is still current |
| JobMachine.Drain | backend/internal/httpapi/routes.go:7437-7480 | A run without overlap in which every retry is used up and the components of one more execution fail for good one after the other, each recorded |
| JobMachine.ManyResults | backend/internal/fulfillment/service.go:330-412 | With overlap, any number k of deliveries of one event record k results, whatever the number of components |
| JobMachine.ExecutesWhatWasDelivered | backend/internal/fulfillment/service.go:168-276 | In every run what a delivery executes is a job with exactly the delivered event, payload, user and subscription, then and ever after |
| JobMachine.InputStays | backend/internal/fulfillment/service.go:330-412 | Between any two moments of a run a job's input never changes |
| JobMachine.DeliverStarts | backend/internal/fulfillment/service.go:198-212 | An event that reuses the key of a different one starts nothing and changes nothing |
| JobMachine.ClaimedOnce | backend/internal/fulfillment/service.go:567-585 | Of two workers with a snapshot of the same job the second to claim it gives up |
| JobMachine.RetriedAlone | backend/internal/httpapi/routes.go:7129-7172 | From any reachable state an undisturbed retry of one component does to the job what the service's retry does |
| JobMachine.TerminateIs | backend/internal/httpapi/routes.go:7291-7321 | A refund or dispute event fails its job unless that is fulfilled, and its retry count becomes 0 because none is given |
| Fulfillment.FulfillmentService.CreateOrLoadJobByIdempotency | backend/internal/fulfillment/service.go:168-276 | A known key returns its job only for the same event, payload, user and subscription and is a conflict otherwise; a new key creates one job with one event |
| Fulfillment.FulfillmentService.TransitionJob | backend/internal/fulfillment/service.go:330-412 | Exactly the allowed transitions change status, retry count and time and append one event |
| Fulfillment.FulfillmentService.ApplyProxyResult | backend/internal/fulfillment/service.go:430-489 | A success fulfils; a status of 500 and more or a retry reason asks for a retry within the budget, one more counted, after the upstream's delay or five seconds; everything else fails the job for good |
| Fulfillment.FulfillmentService.ClaimRetryableJob | backend/internal/fulfillment/service.go:567-585 | An acknowledged claim succeeds exactly on a failed_retryable job; a failed one changes nothing |
| Fulfillment.FulfillmentService.RetryPaymentFulfillmentJob | backend/internal/httpapi/routes.go:7129-7172 | A retry on a snapshot: every early exit leaves the job as it is with its error, otherwise reset and one recorded result |
| Fulfillment.FulfillmentService.RunOnce | backend/internal/fulfillment/worker.go:114-142 | One tick handles every job listed before a cancellation once: retried if its claim is won and acknowledged, left claimed after a lost or unanswered claim or a job that cannot be replayed, untouched after a failed claim; only jobs that are failed_retryable, due and within the budget ever change |
| Fulfillment.RetryRunEffect | backend/internal/httpapi/routes.go:7129-7172 | A retry of a replayable job after a claim ends in the recorded result with exactly two new events, the key index untouched |
| Fulfillment.TickCases | backend/internal/fulfillment/worker.go:114-142 | What a tick makes of one job in every case of rival, claim, payload and answer |
| PaymentExecution.FulfilledMeansDoneIff | backend/internal/httpapi/routes.go:7421-7490 | A fulfilled job means that every component succeeded exactly for payloads with at most one component |
| PaymentExecution.FailedComponentIsForgotten | backend/internal/httpapi/routes.go:7492-7509 | For every payload with two components, an execution that ends fulfilled although one of them failed |
| PaymentExecution.ApiKeyCreatedAnyway | backend/internal/httpapi/routes.go:7440-7470 | The API key is created whatever became of the recharge, also when that ends the job as failed_terminal |
| PaymentExecution.CallsAre | backend/internal/httpapi/routes.go:7437-7480 | Which upstream calls an execution makes, and in which order: those of the payload, except that the package is not reached after an API key whose result a failed recharge forbids to record |
| PaymentExecution.OneComponent | backend/internal/httpapi/routes.go:7492-7550 | For a payload with one component the job has exactly that component's result |
| PaymentExecution.ExecutePaymentSuccessFulfillment | backend/internal/httpapi/routes.go:7421-7490 | The job and the upstream calls after an execution, component by component, with rejected transitions ending it; other jobs stay |
| PackageGrant.BalanceCreditedOnce | backend/internal/httpapi/routes.go:7591-7610 | Any number of concurrent retries with lost answers credit the balance at most once, exactly once when fulfilled |
| PackageGrant.DaysGranted | backend/internal/httpapi/routes.go:7634-7657 | A subscription group receives 0, V or 2V days, V or 2V once fulfilled, 2V exactly when both an assign and an extend were applied |
| PackageGrant.ExactDaysIff | backend/internal/proxy/passthrough.go:567-601 | Every fulfilling run grants exactly V days if and only if the subscription was active to begin with |
| PackageGrant.AssignThenExtend | backend/internal/proxy/passthrough.go:567-601 | For any package with such a group, a run in which one payment gives 2V days |
| PackageGrant.OnlyWhatWasBought | backend/internal/httpapi/routes.go:7594-7657 | In every run a days package never credits the balance, a balance package never gives days, no group but the package's own receives any, and packages without groups or days are not worked on |
| GroupGrants.Account.EnsureAdminSubscriptionInGroup | backend/internal/proxy/passthrough.go:567-601 | The loop over the listing extends exactly when the group is active and assigns otherwise, once, with the key of that call |
| GroupGrants.MergeAllowedGroupIDs | backend/internal/proxy/passthrough.go:1420-1439 | The loop yields the positive ids at their first occurrence, the new group last |
| GroupGrants.ValidateAllowedGroups | backend/internal/proxy/passthrough.go:1403-1418 | Accepts exactly lists of distinct positive ids |
| GroupGrants.DedupValid | backend/internal/proxy/passthrough.go:1403-1439 | A merged list always passes the validation and holds exactly the positive ids of its input |
| GroupGrants.DedupOneMore | backend/internal/proxy/passthrough.go:1420-1439 | An id is added at the end exactly when it is positive and not in the list yet |
| GroupGrants.GrantSkippedIff | backend/internal/proxy/passthrough.go:751-776 | A grant leaves the list as it is exactly when it is valid and has the group; granting twice is granting once |
| GrantRace.GrantsKeptIff | backend/internal/proxy/passthrough.go:751-776 | In every run of grants for one user every group granted stays allowed, if and only if the calls do not overlap |
| GrantRace.LostGrant | backend/internal/proxy/passthrough.go:751-776 | Two overlapping grants of any two groups: both return success and one group is lost |
| GrantRace.UpdateIs | backend/internal/proxy/passthrough.go:751-776 | A grant sends nothing when the list it read is valid and has the group, otherwise the whole merged list, carried out once per Idempotency-Key |
| ScanLoginMachine.AuthorizedByItsScanner | backend/internal/scanlogin/service.go:207-334 | In every interleaving an authorized row was confirmed by the user who scanned it, with a session minted for that user and code, shared with no other code |
| ScanLoginMachine.RowEvolves | backend/internal/scanlogin/service.go:207-351 | Between any two moments of a run the bound user never changes, authorized and denied rows never change, device and expiry stay |
| ScanLoginMachine.SuccessMeansBound | backend/internal/scanlogin/service.go:248-334 | After a successful Confirm the row is authorized for the caller, after a successful Scan it is bound to the caller, as long as it exists |
| ScanLoginMachine.PollShowsScannersSession | backend/internal/scanlogin/service.go:139-180 | A poll hands out a session only from an unexpired authorized row, minted for the user who scanned and confirmed this code |
| ScanLoginMachine.RowStaysUntilGrace | backend/internal/scanlogin/service.go:354-363 | No row is cleaned up before it has been expired for the whole grace |
| ScanLoginMachine.ExpiredUnchanged | backend/internal/scanlogin/service.go:207-351 | A statement whose time is not before a row's expiry leaves the row as it is, and so does one that names another code |
| ScanLoginMachine.BoundBeforeExpiry | backend/internal/scanlogin/service.go:207-228 | In every run a bound row was bound by its user's Scan before it expired |
| ScanLoginMachine.AuthorizedBeforeExpiry | backend/internal/scanlogin/service.go:292-334 | In every run an authorized row was authorized before it expired, by the Confirm that minted its session |
| ScanLoginMachine.MintedForScanner | backend/internal/scanlogin/service.go:280-310 | In every run a session is minted only for the user who scanned its code |
| ScanLoginMachine.LoginSucceeds | backend/internal/scanlogin/service.go:139-334 | From any reachable state an undisturbed scan and confirmation of a pending row before its expiry authorizes it, and a poll shows exactly the minted session until the row expires |
| ScanLoginMachine.ScanBindsIff | backend/internal/scanlogin/service.go:207-217 | In any state a Scan binds exactly a pending row that has not expired |
| ScanLoginMachine.GateMintsIff | backend/internal/scanlogin/service.go:296-310 | Only a Confirm of the scanner on a scanned row that has not expired goes on to mint |
| ScanLoginMachine.RescanSucceedsIff | backend/internal/scanlogin/service.go:248-269 | A repeated Scan succeeds exactly on an unexpired row scanned by the same user, never on an authorized one |
| ScanLoginMachine.ReconfirmSucceedsIff | backend/internal/scanlogin/service.go:248-269 | A Confirm that lost its update succeeds exactly when the row is authorized for the same user and has not expired |
| ScanLoginMachine.CleanupDeletesIff | backend/internal/scanlogin/service.go:354-363 | Cleanup deletes exactly the rows expired for more than the grace |
| ScanLogin.ScanLoginService.Scan | backend/internal/scanlogin/service.go:207-228 | Binds exactly a pending unexpired row; otherwise changes nothing and succeeds exactly as a repeat by the bound user |
| ScanLogin.ScanLoginService.Confirm | backend/internal/scanlogin/service.go:292-334 | Authorizes exactly a row still scanned by the caller and unexpired at the update; repeats succeed without minting, everything else leaves the row |
| ScanLogin.ScanLoginService.Deny | backend/internal/scanlogin/service.go:337-351 | Denies exactly pending or scanned unexpired rows and reports why otherwise |
| ScanLogin.ScanLoginService.Status | backend/internal/scanlogin/service.go:139-180 | Expired, or the status with the session only of an authorized row |
| ScanLogin.ScanLoginService.CleanupExpired | backend/internal/scanlogin/service.go:354-363 | Deletes exactly the rows expired for longer than the grace |
| Limiter.RateLimiter.Allow | backend/internal/guard/limiter.go:32-58 | On real slices sharing backing arrays per key: the decision and every key's stamps after it, with other keys untouched |
| Limiter.RateLimiter.DeleteFromMap | backend/internal/guard/limiter.go:61-74 | The loop leaves exactly the keys that are not idle, with their slices |
| Limiter.RateLimiter.Sweep | backend/internal/guard/limiter.go:60-78 | The loop deletes exactly the keys idle for a day, or everything when that is not enough |
| Limiter.Compact | backend/internal/guard/limiter.go:45-51 | In-place filtering keeps exactly the stamps less than a window old, in order, in the same array |
| Limiter.FreshJoins | backend/internal/guard/limiter.go:45-51 | Filtering is done stamp by stamp and keeps their order |
| Limiter.AllowedIff | backend/internal/guard/limiter.go:32-55 | A call is let through exactly without a limit or when fewer stamps than the limit are less than a window old |
| Limiter.SweepIs | backend/internal/guard/limiter.go:60-78 | Only a map of more than 65536 keys is swept: exactly the keys used within 24 hours stay, or none when these are more than 65536 |
| LimiterExact.DecidesLikeFullHistory | backend/internal/guard/limiter.go:32-78 | In every run with a clock that does not go back and windows of at most a day, Allow decides as if every accepted hit since the last whole-map drop were kept |
| LimiterExact.LimitHolds | backend/internal/guard/limiter.go:32-78 | With one limit per key, over all hits ever accepted: in a run with d drops of the whole map any (d + 1) * limit + 1 consecutive accepted hits span at least a window, so without a drop any limit + 1 do |
| LimiterExact.NothingForgotten | backend/internal/guard/limiter.go:52-57 | The log of all accepted hits is never reset: each call adds its hit exactly when it is accepted under a limit |
| LimiterExact.DropAccepts | backend/internal/guard/limiter.go:75-77 | A drop forgets: the call that causes it is accepted whatever was accepted before |
| LimiterExact.DropsExceedLimit | backend/internal/guard/limiter.go:60-78 | The bound of LimitHolds is attained: for every key, limit and d, a run from the empty map with d drops accepts (d + 1) * limit hits of the key at one instant, so a single drop already breaks the limit |
| LimiterExact.DropNeedsActiveKeys | backend/internal/guard/limiter.go:60-78 | In every ordered run the map is dropped only when more than 65536 keys have a hit accepted within the last 24 hours |
| LimiterExact.MapBounded | backend/internal/guard/limiter.go:60-78 | In every run the map has at most maxTrackedKeys + 1 keys |
| LimiterExact.FreshTwice | backend/internal/guard/limiter.go:45-51 | Compacting early never changes a later count |
| LimiterExact.IdleIsStale | backend/internal/guard/limiter.go:60-78 | A swept key has no stamp that a later decision would count |
| Rebind.Rebind | backend/internal/db/sql_dialect.go:16-35 | The loop rewrites as specified for Postgres and returns the query for every other dialect |
| Rebind.RebindKeepsStatementIff | backend/internal/db/sql_dialect.go:16-35 | Reading the output as `$k` references gives the same statement as reading `?` in order, exactly when no `$` and no `?` is directly followed by a digit |
| Rebind.RebindPreservesMeaning | backend/internal/db/sql_dialect.go:16-35 | References are numbered 1..n in order and substituting argument k equals filling the markers in order |
| Rebind.RebindRecoverable | backend/internal/db/sql_dialect.go:16-35 | The original query can be read off the rebound one |
| Rebind.InsertKeepsArguments | backend/internal/db/sql_dialect.go:37-57 | The RETURNING form of an insert keeps every argument in its place |
| Rebind.InsertElsewhere | backend/internal/db/sql_dialect.go:37-57 | Other dialects are sent the trimmed statement with one semicolon at its end |
| Rebind.DialectIs | backend/internal/db/sql_dialect.go:59-65 | Postgres is recognised in any case and with white space around it; the default is SQLite |
| Escaping.QuotedReadsAsValue | frontend/lib/dashboard-template.ts:46-49 | In any place where a word may continue, the quoted value adds exactly that value, if and only if it has no NUL (section 2.2.2 of the POSIX Shell Command Language) |
| Escaping.ClaudeScriptRuns | frontend/lib/dashboard-template.ts:105-109 | Whatever the key contains, the script is exactly two exports with the given values and one command |
| Escaping.TomlIsCharMap | frontend/lib/dashboard-template.ts:51-59 | The five chained replacements equal one map over the characters |
| Escaping.TomlRoundTripIff | frontend/lib/dashboard-template.ts:51-59 | The escaped text is read back as the value exactly when it has no other control characters, and is refused otherwise (TOML v1.0.0, section "String") |
| Escaping.CommentHoldsIff | frontend/lib/dashboard-template.ts:118-121 | The export line in the TOML comment stays within it exactly when the key could stand in a comment itself |
| Resp.WriteRedisCommand | backend/internal/cache/redis.go:111-121 | What was sent is the command, or on failure a prefix of it |
| Resp.Reader.ReadBulkString | backend/internal/cache/redis.go:138-162 | The buffered reader answers by the stream alone, however it is cut into reads, and leaves exactly the rest unread |
| Resp.Reader.ReadLine | backend/internal/cache/redis.go:139-142 | Reads up to the first newline across reads, or everything when none comes |
| Resp.Reader.ReadFull | backend/internal/cache/redis.go:157-160 | Fills the buffer with the next bytes, or fails having taken them all |
| Resp.FrameReadsBack | backend/internal/cache/redis.go:138-162 | A bulk frame followed by anything gives exactly its payload, CR LF included, and consumes exactly the frame |
| Resp.ReplyIs | backend/internal/cache/redis.go:138-162 | The answer to every first line, whatever follows: error, unexpected line, malformed size, missing value for a negative size, a size whose buffer overflows, a truncated payload or the payload |
| Resp.NilReply | backend/internal/cache/redis.go:154-156 | The reply `$-1` reads as a missing value and leaves what follows |
| Resp.CommandDecodes | backend/internal/cache/redis.go:111-121 | A written command followed by anything decodes to its parts (RESP specification, "Arrays" and "Bulk strings") |
| Resp.CommandsUnambiguous | backend/internal/cache/redis.go:111-121 | Two streams that start with commands are equal only if the commands and the rest are |
| Decimal.AtoiOfItoa | backend/internal/cache/redis.go:116-153 | Printing a length and reading it back is the identity |
| Decimal.AtoiIs | backend/internal/cache/redis.go:150-153 | Digits with or without a sign read as their value, or as the nearest 64-bit int with an error |
| Decimal.MalformedIff | backend/internal/cache/redis.go:150-153 | Everything else is refused |
| Renewal.Subscription.UpdateLocalPackageSubscriptionExpiry | backend/internal/httpapi/routes.go:7975-8021 | Every branch: other packages and failed reads change nothing, otherwise the new expiry from start, old expiry (absent, unreadable or present) and now |
| Renewal.RenewalClosedForm | backend/internal/httpapi/routes.go:7952-8021 | After same-tier purchases that follow each other the expiry is the maximum over i of purchase time i plus all days paid from then on |
| RenewalRace.PaidDaysKeptIff | backend/internal/httpapi/routes.go:7952-8021 | With lookup, replacement, SELECT and UPDATE as separate steps of concurrent purchases: in every run the active subscription runs for all days whose expiry write landed, if and only if the user's purchases do not overlap and the lookup of the active subscription never fails |
| RenewalRace.LostRenewal | backend/internal/httpapi/routes.go:7984-8020 | Two renewals computed from one SELECT: three periods are paid and acknowledged, the subscription runs for two, for any number of days |
| RenewalRace.LostRow | backend/internal/httpapi/routes.go:7952-7969 | A failed lookup replaces the running subscription: two periods are paid, the new row runs for one |
| RenewalRace.BothFromOneReading | backend/internal/httpapi/routes.go:7984-8020 | From any reachable state with a row to renew, two purchases that read it together leave it as one of them would |
| RenewalRace.AloneIsBought | backend/internal/httpapi/routes.go:7952-8021 | A purchase that is not interrupted does to the active row what the atomic purchase of Renewal does |
| Renewal.RenewalLosesNothing | backend/internal/httpapi/routes.go:7975-8021 | From any readable expiry a renewal adds its days to what was left and to today, and no more |
| Renewal.UpdatedIs | backend/internal/httpapi/routes.go:7983-8014 | A days package sets the expiry alone, to whole seconds: its days after the start of a new row, and for a renewal after the latest of start, now and the end of what was paid |
| Renewal.CountedOnceIff | backend/internal/httpapi/routes.go:7952-8021 | For any number of attempts at one payment and any fates of their writes, on a new row or a renewed one: its days count once if and only if exactly one expiry write landed and, when an attempt created the row, it was the first attempt's |
| Renewal.RetriedNewRow | backend/internal/httpapi/routes.go:7983-8014 | A second attempt at a payment that created its row gives two periods from the start exactly when it comes within the first, whatever became of the first write |
| Downloads.CheckVersion | backend/internal/download/service.go:261-327 | For every arrangement the sort may leave: the error cases, the latest row, and needs_update exactly when that row's version exceeds the user's; when some row is preferred to all others it is the latest, and needs_update says that some row exceeds the user's version unless a row without a version is the newest of all; when all versions are printed numbers, no row is lexicographically above the latest one, which among equal versions was updated last, and an update is needed exactly when it is above the user's |
| Downloads.TransitiveIff | backend/internal/download/service.go:369-381 | preferLatestDownload orders rows with distinct ids exactly when no unparsable row lies in time between a newer lower and an older higher version |
| Downloads.CycleIff | backend/internal/download/service.go:369-381 | The exact shape of every three-row cycle of the comparator |
| Downloads.AllParseOrders | backend/internal/download/service.go:227-247 | When all versions parse it is a strict total order |
| Downloads.LatestIndependentOfOrder | backend/internal/download/service.go:305-309 | With such a best row, any order of the query and any arrangement by the sort give the same latest row |
| Downloads.DeterminedIff | backend/internal/download/service.go:305-309 | All arrangements without an inverted neighbour start with the same row if and only if one row is preferred to every other |
| Downloads.NoStraddleHasBest | backend/internal/download/service.go:369-381 | When the comparator is an order there is a best row |
| Downloads.AllParseHasBest | backend/internal/download/service.go:369-381 | When all versions parse there is a best row and no update is hidden |
| Downloads.NeedsUpdateIff | backend/internal/download/service.go:309-314 | needs_update agrees with whether some row exceeds the user's version exactly unless a row without a version is the newest and hides one that does |
| Downloads.EmptyDoesNotParse | backend/internal/download/service.go:104-106 | The empty version that an update lets through does not parse |
| Downloads.BlankRowHidesUpdate | backend/internal/download/service.go:104-106 | A row that was just edited to an empty version is chosen over any older row and hides its update, although the comparator is an order on the two |
| Downloads.StraddleIsAmbiguous | backend/internal/download/service.go:104-106 | With a row that lost its version, three arrangements without an inverted neighbour start with three different rows |
| Downloads.EmptiedVersionStraddles | backend/internal/download/service.go:104-106 | Under the real parser: for any two printed versions, a lower one updated after a higher one and a row between the two updates whose version was edited away make the latest row depend on the sort |
| Downloads.StraddleBelowBest | backend/internal/download/service.go:369-381 | A straddled triple does no harm below a best row: being an order is enough for a determined choice, but not needed |
| Downloads.PrintedVersionParses | backend/internal/download/service.go:216-225 | A printed version parses to its parts |
| Downloads.ParsesIff | backend/internal/download/service.go:216-225 | Exactly the texts of the form v1.2.3 parse, to their three numbers, clipped to the int range |
| Downloads.CompareIsLexicographic | backend/internal/download/service.go:227-247 | The comparison is the sign of the lexicographic order of major, minor and patch |
| UsageStats.AggregateUsageCacheStats | backend/internal/proxy/usage_stats.go:116-175 | Every counter is the sum of its own token count over the records, in total and per group over the group's records; each rate is the share of tokens read from the cache; groups are ordered by requests, then id |
| UsageStats.Accumulate | backend/internal/proxy/usage_stats.go:125-144 | The loop over accumulator objects leaves each group's tally in its own object |
| UsageStats.GroupsAddUp | backend/internal/proxy/usage_stats.go:151-167 | The groups of a breakdown add up to the totals in every counter |
| UsageStats.InfoIsLast | backend/internal/proxy/usage_stats.go:140-143 | Name and multiplier are those of the group's last record that carries a group |
| UsageStats.BreakdownOrderFree | backend/internal/proxy/usage_stats.go:125-174 | Any order of the records gives the same groups in the same places with the same counters |
| UsageStats.OverallRateIsMediant | backend/internal/proxy/usage_stats.go:146-156 | Some group with tokens has a rate at most, and some at least, the overall hit rate |
| Wallet.WalletService.RedeemCard | backend/internal/user/service.go:760-855 | Whatever statement fails, the tables hold the whole redemption or nothing of it; a success redeems an unredeemed card that has not expired and adds its amount to the balance; without failures each error comes exactly when the card says so |
| Wallet.WalletService.Book | backend/internal/user/service.go:816-848 | The write half books exactly a card that is still unredeemed and otherwise loses the claim |
| Wallet.WalletService.GetWallet | backend/internal/user/service.go:735-758 | Creates an empty wallet when there is none and returns the balance |
| WalletMachine.ConservedIff | backend/internal/user/service.go:806-848 | In every interleaving each balance is the sum of its transactions and each balance_after the sum so far, exactly when redemptions of one user do not overlap, however those of different users do |
| WalletMachine.CardsOnce | backend/internal/user/service.go:824-839 | With or without such overlap a card is redeemed exactly when one transaction is backed by it, of its redeemer and its amount |
| WalletMachine.RedeemedInTime | backend/internal/user/service.go:781-804 | In every run each booked transaction was read by its user before its card expired |
| WalletMachine.ReadGoesOnIff | backend/internal/user/service.go:781-814 | A reading half goes on exactly when the card exists, is unredeemed and has not expired |
| WalletMachine.LostUpdate | backend/internal/user/service.go:806-822 | Two cards redeemed at once by one user leave a balance of 20 with transactions of 30 |
| Resend.Do | backend/internal/proxy/passthrough.go:340-408 | What is sent and answered: the first path as often as its answers ask for, the second path exactly after a 404, the last answer returned; other methods than GET and HEAD are sent at most once per path; at most four sends; the return after the loops is never reached |
| Resend.TryPath | backend/internal/proxy/passthrough.go:361-404 | One path is sent twice exactly for GET and HEAD after 502, 503, 504 or a transient network error, otherwise once |
| Resend.SendsBounded | backend/internal/proxy/passthrough.go:361-404 | At most four sends; other methods than GET and HEAD once per path; a first path repeated exactly after the answers that allow it; the second path only after a 404 |
| Resend.FallbackIff | backend/internal/proxy/passthrough.go:1077-1095 | A second path exists exactly for relative URLs at or below the keys path, and is that URL with the prefix exchanged and the path encoded anew |
| Resend.EscapeReadsBack | backend/internal/proxy/passthrough.go:1091-1094 | The encoded path is read back as the path (section 2.1 of RFC 3986) |
| Resend.PlainPathStays | backend/internal/proxy/passthrough.go:1091-1094 | A path of letters, digits and marks that need no encoding is left alone (section 3.3 of RFC 3986) |
| Checkout.PaidAmountMatchesPrice | backend/internal/httpapi/routes.go:7676-7692 | The credited part is within one minor unit of the price, equal to it exactly for whole minor units, and never clamped |
| Checkout.ChargedIsNearest | backend/internal/httpapi/routes.go:8906-8911 | Price with fee, and the fee, are charged to the nearest minor unit |
| Checkout.FeeIs | backend/internal/httpapi/routes.go:4865-4868 | The fee is due exactly when it is enabled and the price is below a positive threshold |
| Checkout.PriceIs | backend/internal/httpapi/routes.go:4838-4862 | The price, or the reason for the refusal, of fixed-price and top-up packages |
| Checkout.OverflowIsNotCharged | backend/internal/httpapi/routes.go:8906-8911 | Beyond the int64 range a positive price is refused or charged as a negative amount |

## Left out

- Vault.TokenVault.UpsertToken: credentials are compared after trimming; sealing and opening them, `rotation_started_at`, `updated_at` and session revocation are not modelled.
- Arbiter.RotateUpstreamVaultLocked: whether the row needs rotating at all (expiry, a token another handler already installed) is decided by the caller and is a free choice of the `Load` action.
- Rotation: each SQL statement is atomic and crashes fall between statements; the advisory lock is taken to last as long as its thread; the upstream issues fresh refresh tokens and a refusal not classified as invalid means that the token was not consumed.
- RefreshLocks.RefreshLockSafe: the per-process mutex only; the advisory lock of other processes is the `lock` switch of `Rotation`.
- JobMachine.ResultsBoundedIff: the number of components is one for the whole run; executions of smaller payloads are those that crash before the remaining ones.
- JobMachine.JobsSafe: early exits of a retry or an execution are crashes between two steps.
- Fulfillment.FulfillmentService.CreateOrLoadJobByIdempotency: the branch that loads after a unique violation gives the same outcome as a load and is not separate; transactions are serializable; metrics, `storeMax` and logging are left out.
- PackageGrant.BalanceCreditedOnce: the amount credited is taken to be the same in every attempt; how it is computed is left out.
- GrantRace.GrantsKeptIff: other edits of the user's groups do not come between.
- PackageGrant.DaysGranted: `ensurePackageUserKeyInGroup` and other calls without an effect on days or balance appear only as failures that stop an attempt.
- LimiterExact.DecidesLikeFullHistory: the code reads the clock before it takes the mutex; a clock that does not go back is assumed, and windows of at most a day. The same holds for LimitHolds.
- Rebind.RebindKeepsStatementIff: a query is a sequence of characters; string literals, comments and dollar quoting inside SQL are text like any other, invalid UTF-8 and non-ASCII white space are not modelled.
- Escaping.QuotedReadsAsValue: the shell reader stops at characters it does not follow (operators, expansions, double quotes, comments); lone surrogates of JavaScript strings are not modelled.
- Escaping.TomlRoundTripIff: the TOML escapes `\b`, `\f`, `\u` and `\U`, which the template never writes, are recognised but not decoded.
- Resp.Reader.ReadBulkString: memory is unlimited, so a large size fails only when size + 2 overflows.
- Renewal.CountedOnceIff: attempts at one payment follow each other and no other purchase comes between them.
- Renewal.RenewalClosedForm: each purchase is one atomic step with a lookup that succeeds; what overlapping purchases and failed lookups lose is in `RenewalRace`. Years beyond the range of time formatting are not modelled.
- RenewalRace.PaidDaysKeptIff: purchases of one tier, which another tier's purchase ends by design; transactions are serializable.
- Downloads.CheckVersion: the sort is any procedure that leaves a permutation without an inverted neighbour; with a comparator that is not an order, a sort of many rows may leave one.
- UsageStats.OverallRateIsMediant: rates are exact reals and token sums do not overflow.
- WalletMachine.ConservedIff: a redemption is one reading and one writing half, which row locks make atomic; retries of a serializable transaction that the database aborts, and card currency, are left out.
- Resend.Do: headers, bodies and timeouts are left out; building a URL or a request is a predicate that may fail.
- Resend.FallbackIff: parsing a URL is an input, its query and fragment are text as they are written back.
- Checkout.PaidAmountMatchesPrice: the record as checkout wrote it; the completed payment later overwrites the amount, and the admin assign path records another unit.
- HTTP and JSON encoding, cryptography, mail, captcha, the articles, docs, configuration and directory services and the user interface: foreign calls or easy members only.
- The re-encryption of legacy credentials, account deletion beyond its effect on the vault, and liveness after a crash between claim and result.
