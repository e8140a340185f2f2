# A verified model of tokenzen-lite's billing, reporting, translation and routing core

tokenzen-lite is a gateway that relays language-model calls and bills them in credits. This
project models the parts of its server that have to be right and proves what they promise.
Tables are maps and sequences held by classes, a database transaction is one atomic step (or,
in `Interleaving`, a sequence of lock and commit steps), and everything the outside decides
(lost replies, upstream answers, draws, clocks) is a parameter or an event of a run.

**Billing.** `Ledger` says what one adjustment does; `BillingService` is the service that does
it; `Acceptance` says in numbers when an adjustment is accepted and what each table then holds;
`AccountInvariants` is what any sequence of adjustments keeps. `Session` is the billing
session of one request (pre-charge, then settle, refund or orphan cleanup) over a wire that may
lose a write, lose its reply, or deliver it late. `Protocol` lets any number of sessions,
cleanups, grants, redemptions and key edits interleave; `ProtocolRuns` holds the results over
whole runs, `DayTotals` ties the daily counters to the ledger there, `CleanupTally` accounts for
what a cleanup finds, refunds and counts, and `CleanupRuns` follows one among everything else.
Two hypotheses are explicit there: a handler asks for at most one outcome before it returns, and
a settle commits within the upstream timeout plus the write window of its consume
(`Protocol.InTime`). `Handler`
discharges the first: a whole request (pre-charge, the retry loop of `Retry`, the closing call)
is a run of the protocol that ends in the session's own state and the service's own books, and
`Payment` says what it leaves there: who starts, who pays and who gets everything back.
`CallCharges`, `CallCommits` and `Counters` carry the invariants; `Interleaving` models the row
locks; `MergedLedger` (its rows written out in `MergedRows`) and `MonthlyGrant` (its effect on
each account in `GrantTally`) are the merged ledger view and the monthly grant.

**Reports.** `UsageTables`, `RollupRepo` and `Retention` model the daily roll-up: reports read
an aggregated table up to a watermark and raw logs after it, raw logs are deleted later, and
reports never change. `ReportFields` says column by column what a filter keeps, which group a
call belongs to, and what it adds there.

**Translation.** `Canonical` gives event sequences their meaning; `OpenAIStream`,
`AnthropicStream` and `GeminiStream` hold the stream decoders and encoders, each against a
reference reader of its protocol; `StreamForms` says what those readings mean chunk by chunk;
`StreamConduit` joins them and models the relay loop. `RequestModel`, `AnthropicRequest` and
`OpenAIRequest` are the request codecs; `AnthropicForms` and `OpenAIForms` say, for any wire and
any request, what each message, block, call, field and word is read and written as.

**Prices.** `Calculator` (charges, conversions, time-of-day multiplier), `Tariff` (the same
charges in numbers), `Display` and `Numerals` (decimal strings, with 64-bit wrap-around where the
code has it).

**Admission and routing.** `Limiter` (its answers in terms of the calls alone in
`LimiterHistory`), `FailureLock`, `Gate`, `Routing`, `Retry`. `Truncate` is the UTF-8 shortening
used before strings are stored; `CodePoints` ties its characters to the code points they encode.

## What holds only under a condition

Each of these is proved in both directions.

- No call is both settled and refunded exactly when upstream timeout + write window <= orphan
  threshold (`ProtocolRuns.OneOutcomeIffSafe`). The start-up guard asks for strictly less, which
  is safe; the `cleanup-precharge` command takes any threshold.
- The key reconciliation finds nothing in any run under the same condition and no other
  (`ProtocolRuns.KeysAgreeIffSafe`); the balance reconciliation finds nothing in any run at all.
- `DetailDecimals` ends with the least number of decimals exactly for rates up to 10^18: its power
  of ten wraps beyond that, and the loop then returns too large a number or never ends.
- `CreditsToDecimalString` prints a numeral for every amount but the smallest 64-bit integer,
  whose negation wraps to itself.
- `sweep` of the limiter drops other keys' history with the caller's window. Two windows sharing
  a limiter are answered correctly exactly when neither is more than twice the other. The login
  limits (one minute) and the registration limit (one hour) share one limiter
  (server/internal/api/auth_handlers.go:86-87 and 203).
- The affinity table's comment promises separate bindings for each model; that is so exactly when
  no model's name followed by a colon starts another's.
- A rolled-up day may be rolled again exactly when it had no settled calls or still has some in
  the raw table; after a purge, rolling it again would erase its reports. `PendingDays` never
  lists such a day.
- The decoder of OpenAI chunks gives every argument delta to the call opened last, whatever index
  the delta names. A stream that numbers its calls in order keeps its text and its calls exactly
  when its deltas are in turn, so that no two calls are filled at once
  (`OpenAIStream.ContentPreservedIff`, carried to the client in `StreamConduit.OpenAIToAnthropic`).
- A tool call with neither id nor name is lost when written as OpenAI chunks; all else survives.
- An Anthropic request survives encoding and decoding exactly under `AnthropicRequest.Survives`:
  a model, a non-zero max_tokens, images that are base64 data URIs of their declared type, no
  system or tool role among the messages, a known tool choice.

## Model

| member | source | states |
|---|---|---|
| BillingService.Service.Apply | server/internal/billing/service.go:118-246 | one transaction has exactly the effect of the ledger specification: balance, used credit, both day counters, key and ledger row together, all rolled back on every refusal except a depleted key, whose new status is kept |
| BillingService.Service.ApplyStaged | server/internal/billing/service.go:151-246 | the order of checks and writes inside the transaction gives the specified answer, and the specified books whenever they are kept |
| BillingService.Service.ValidateDailyLimits | server/internal/billing/service.go:251-284 | the user's limit is checked before the key's, only for debits, against the effective amount; reaching a limit exactly passes |
| BillingService.Service.ApplyKeyCredit | server/internal/billing/service.go:301-343 | a pre-charge takes the key's credit only within its limit and otherwise marks the key depleted; other adjustments move it with a floor at zero |
| BillingService.Service.WriteLedgerEntry | server/internal/billing/service.go:346-368 | a second entry of the same request and type is refused and nothing is written; an empty request id never collides |
| BillingService.Service.Grant | server/internal/billing/service.go:427-442 | a zero grant is rejected unbooked; any other is one adjustment, a revocation when negative |
| BillingService.Service.RedeemCode | server/internal/billing/service.go:445-503 | a code is redeemed only once, flips together with its booking, stays unused when the booking fails, and each refusal names its true reason |
| Acceptance.PrechargeAcceptedIff | server/internal/billing/service.go:151-368 | a pre-charge is accepted if and only if its user exists and has the balance, its key and both days have room, reaching a limit allowed, and no entry of its request and type is there; every inequality written out |
| Acceptance.RefusalNamesTheFirst | server/internal/billing/service.go:164-246 | a refused pre-charge is told the first obstacle in the order key, user, balance, user's day, key's day, duplicate |
| Acceptance.OtherAcceptedIff | server/internal/billing/service.go:170-246 | settlements, refunds, grants and codes need the user, a new request, and the balance unless they are clamped to it |
| Acceptance.UserRowAfter | server/internal/billing/service.go:187-216 | an accepted adjustment moves the balance by the amount taken and the used credit against it, and no other user |
| Acceptance.EntryAfter | server/internal/billing/service.go:346-368 | it appends one entry with that amount and the balance it leaves |
| Acceptance.UserDaysAfter | server/internal/billing/service.go:217-222 | it moves the user's counter of that day and no other, and only for spending |
| Acceptance.KeyDaysAfter | server/internal/billing/service.go:223-227 | it moves the paying key's counter of that day and no other |
| Acceptance.KeyRowAfter | server/internal/billing/service.go:301-343 | it moves the paying key's used credit, never below zero, and nothing else of any key |
| Acceptance.RefusedLeaves | server/internal/billing/service.go:301-343 | a refusal writes nothing but the mark of a depleted key |
| Acceptance.GrantMoves | server/internal/billing/service.go:427-442 | a grant of any sign is accepted exactly when the balance stays at zero or above and the key is new, and moves the balance by its amount |
| Acceptance.RedemptionMoves | server/internal/billing/service.go:463-466 | a code adds exactly its credits and counts as no spending |
| DayTotals.CountersAreDayTotals | server/internal/billing/service.go:204-228 | in every state of every run each day counter of a user or key is minus the ledger's calls of that day |
| AccountInvariants.ApplyTxKeepsSound | server/internal/billing/service.go:151-246 | any adjustment of any shape keeps balance = ledger sum >= 0, running balances as prefix sums, and one entry per request and type |
| AccountInvariants.EveryRunIsSound | server/internal/store/ledger.go:261-274 | after every sequence of adjustments from empty books the balance reconciliation reports no user |
| AccountInvariants.RepeatIsIdempotent | server/internal/billing/service.go:346-368 | repeating a booked adjustment, later and on another day, changes no balance, counter or ledger row |
| Session.BillingSession.Precharge | server/internal/relay/session.go:83-110 | only a fresh session pre-charges, and it counts as pre-charged exactly when the booking was confirmed |
| Session.BillingSession.Settle | server/internal/relay/session.go:121-164 | settling books the difference with a clamp; an unconfirmed settle blocks any later refund by the session; any other state is left alone |
| Session.BillingSession.Refund | server/internal/relay/session.go:174-200 | the whole pre-charge is given back at most once per confirmed outcome, without a write when it is zero; a failed refund may be tried again |
| Session.BillingSession.EnsureFinal | server/internal/relay/session.go:204-212 | when the handler returns an outstanding pre-charge is refunded as Refund would; settled, refunded and settle-failed sessions are untouched |
| Session.ScanOrphans | server/internal/billing/orphan.go:47-68 | finds exactly the named consumes older than the threshold without refund or settle entry, in ledger order |
| Session.OrphansAmongExact | server/internal/billing/orphan.go:47-68 | the list of orphans holds every orphan and nothing else |
| Session.RefundOrphan | server/internal/billing/orphan.go:106-144 | one orphan's refund, its duplicate and its failure are told apart, and a negative amount is refused |
| Session.CleanupOrphans | server/internal/billing/orphan.go:76-100 | each orphan is refunded in its own transaction in order, the tally counts refunds and duplicates, and the first failure ends the loop |
| Session.CleanupLeavesNoOrphan | server/internal/billing/orphan.go:70-100 | a cleanup that did not fail leaves no orphan older than the threshold, and only ever appends refunds |
| CleanupTally.ScanListsIff | server/internal/billing/orphan.go:47-68 | the scan lists each named consume before the cutoff that no entry of its request refunds or settles, once, in ledger order, with its user, request, amount, key and time |
| CleanupTally.OneIsCounted | server/internal/billing/orphan.go:82-99 | a refund that arrives is counted as made, with its amount, when it is new, and as handled when the request has one |
| CleanupTally.AppendsRefundsOf | server/internal/billing/orphan.go:106-124 | everything a cleanup appends is the refund of one of its orphans, to its user, of its amount and key |
| CleanupTally.TallyCounts | server/internal/billing/orphan.go:82-100 | refunds plus duplicates are the orphans visited, refunds are the entries appended, and their credits are the sum of those entries; a failure may leave one uncounted |
| CleanupTally.CleanupIsCounted | server/internal/billing/orphan.go:76-100 | after a cleanup that did not fail the total refunded is exactly what the ledger gained |
| CleanupTally.StopsIff | server/internal/billing/orphan.go:82-93 | for accounts that exist and owe nothing the loop stops exactly at a refund whose confirmation is lost |
| CallCharges.CallTotal | server/internal/store/ledger.go:181-226 | the entries of one request sum to its consume plus its settle plus its refund |
| CallCharges.KeyTotalIsCharges | server/internal/store/ledger.go:290-316 | minus a key's ledger sum is the sum of the net charges of its calls |
| CallCommits.KeyUsedCovers | server/internal/billing/service.go:301-343 | a key's used credit is at least what any one of its calls is charged, so giving that back cannot reach the floor at zero |
| CallCommits.CommitTerminal | server/internal/billing/service.go:301-343 | committing a settle or refund to books in order keeps them in order and the floor at zero has no effect |
| CallCommits.TerminalMovesKey | server/internal/billing/service.go:301-343 | so the key's used credit moves by exactly the entry's amount |
| CallCommits.CommitConsume | server/internal/billing/service.go:151-246 | committing a pre-charge keeps the books in order |
| Protocol.NextKeeps | server/internal/relay/session.go:121-212 | every event of the protocol keeps its invariant: books in order, every write in flight licensed by a session or a scan, no call with both outcomes |
| ProtocolRuns.RunKeepsInv | server/internal/relay/session.go:83-212 | the invariant holds in every state any run reaches under a safe configuration |
| ProtocolRuns.StartupCheckIsSafe | server/cmd/tzl/guard.go:21-41 | the start-up guard accepts exactly timeout plus window below the threshold, and what it accepts is safe |
| ProtocolRuns.OneOutcomeIffSafe | server/cmd/tzl/guard.go:9-41 | over all runs no request ever has both a refund and a settle entry, if and only if timeout plus window does not exceed the threshold |
| ProtocolRuns.OvertakenGains | server/cmd/tzl/guard.go:9-12 | without that, a run exists that leaves the user richer by pre-charge minus final cost |
| ProtocolRuns.BooksAgree | server/internal/store/ledger.go:261-316 | in every reachable state both reconciliations are empty: balances are the sum of their entries and not negative, keys' used credits minus theirs; and a user's used credit is the sum over the user's keys and over the user's days |
| ProtocolRuns.ReconcilesFindDrift | server/internal/store/ledger.go:261-316 | a balance or a used credit moved by any amount in agreeing books is found, and no other row |
| ProtocolRuns.KeysAgreeIffSafe | server/internal/store/ledger.go:290-316 | the key reconciliation is empty in every state of every run if and only if timeout plus window does not exceed the threshold |
| ProtocolRuns.BalancesAlwaysAgree | server/internal/store/ledger.go:261-274 | the balance reconciliation is empty in every state of every run, safe or not |
| CleanupRuns.ConfirmedCleanupLeavesNoOrphan | server/internal/billing/orphan.go:70-144 | once every orphan a scan found has a confirmed refund, no consume older than the scan's cutoff lacks an outcome, whatever sessions, late writes, cleanups, grants and edits came in between |
| Handler.Serve | server/internal/relay/pipeline.go:303-319 | pre-charge, retry loop and closing call are enabled events of the protocol whose run ends in the session's state and the service's books; an answered request that is carried out ends settled and without refund at its final cost, any other refunded in full |
| Handler.HandlerCallsAreEnabled | server/internal/relay/pipeline.go:303-319 | whatever other requests do before and between them, the handler's billing call and its closing call are enabled, and nobody else touches the session's track |
| Payment.StartsIff | server/internal/relay/session.go:83-110 | a call starts if and only if its confirmation arrives and the owner's balance, the key and both daily limits have room for its cost |
| Payment.StartedLeaves | server/internal/relay/session.go:94-110 | it then has exactly its cost taken from the key's owner, as one consume entry of that key |
| Payment.SettledLeaves | server/internal/relay/session.go:121-164 | once a settle is carried out the call has a settle entry and no new refund, whatever the closing call does, and the balance has paid the final cost or all there was |
| Payment.RefundedLeaves | server/internal/relay/session.go:174-212 | of two refunds asked for, at most one is booked, and if either is carried out the whole pre-charge is back and nothing is settled |
| Payment.SettledIff | server/internal/relay/session.go:139-164 | a settle counts as settled exactly when its confirmation arrives and the account exists; otherwise it has failed for good |
| Payment.RefundedIff | server/internal/relay/session.go:174-200 | a refund counts as refunded exactly when its confirmation arrives; otherwise the session may ask again |
| ProtocolRuns.CallNets | server/internal/relay/session.go:121-200 | every call nets nothing, its pre-charge, nothing after a refund, or once settled the smaller of its final cost and its pre-charge plus the balance then left |
| ProtocolRuns.SessionAloneAllowsBoth | server/internal/relay/session.go:174-200 | a session whose refund committed unseen would still settle and hand out the pre-charge twice, so the handlers' order is needed |
| Counters.ApplyTxKeepsDays | server/internal/billing/service.go:204-235 | every adjustment keeps a user's used credit equal to the sum of the user's day counters |
| Counters.UserUsedIsSumOfKeys | server/internal/billing/service.go:301-343 | in books in order a user's used credit is the sum over the user's keys |
| Interleaving.CommitIsAtomic | server/internal/billing/service.go:151-246 | what a transaction publishes from rows read under its locks is what running it alone at that moment would give |
| Interleaving.Serializable | server/internal/billing/service.go:151-246 | every interleaving of lock steps ends in the books of the serial run of its commits, in commit order |
| Interleaving.CommittedConsumeWithinLimits | server/internal/billing/service.go:251-343 | a booked pre-charge leaves balance, both day counters and the key's used credit within the limits, however many calls passed earlier checks together |
| Interleaving.NoCyclicWait | server/internal/billing/service.go:151-168 | with keys locked before users, no chain of waiting transactions returns to its start |
| Interleaving.SomeTransactionProceeds | server/internal/billing/service.go:151-168 | while any transaction is open, one can take its next step |
| Interleaving.BlockedIff | server/internal/billing/service.go:151-179 | a transaction cannot take its next step exactly when it waits for another one's lock |
| Interleaving.NoLockInVain | server/internal/billing/service.go:151-179 | in every interleaving a pre-charge that found its key without room never holds the user's row |
| MergedLedger.Merge | server/internal/store/ledger.go:181-209 | the grouping map and the loops over it yield one row per listed key with entries, named and dated by its first entry, its id and balance those of its last |
| MergedLedger.MergePartitions | server/internal/store/ledger.go:181-217 | over distinct keys covering all entries, each entry lies in exactly one row and the amounts add up to the same total |
| MergedLedger.CallRowIsCharge | server/internal/store/ledger.go:181-226 | under the billing invariants a call's row shows minus its net charge and is never positive |
| MergedRows.SameRowIff | server/internal/store/ledger.go:212-226 | two entries share a row exactly when both belong to one named call, or are the same entry |
| MergedRows.GroupIsFilter | server/internal/store/ledger.go:181-190 | a row's entries are all those of its key, in ledger order |
| MergedRows.RowsFollowTheList | server/internal/store/ledger.go:191-209 | every listed key with entries has one row, in the order of the list; a call's row is a charge named and dated by its first entry, any other row is its one entry |
| MonthlyGrant.GrantMonthlyCredits | server/internal/maintenance/monthly_grant.go:64-134 | batch after batch every eligible account up to the safety bound is handled exactly once, and the tally tells granted, skipped, replayed and failed apart |
| MonthlyGrant.KeysAreSeparate | server/internal/maintenance/monthly_grant.go:21-23 | two accounts or two months never share an idempotency key |
| MonthlyGrant.GrantedAtMostOnce | server/internal/maintenance/monthly_grant.go:57-63 | in any history an account has at most one grant entry of a month |
| MonthlyGrant.RoundSettles | server/internal/maintenance/monthly_grant.go:28-37 | after a round no account failed, none outside the list changed, and each listed one has its entry or, when topping up, the full amount |
| MonthlyGrant.SecondRoundIsIdle | server/internal/maintenance/monthly_grant.go:57-63 | a further round of the same month books nothing |
| GrantTally.RoundGives | server/internal/maintenance/monthly_grant.go:28-37 | after a round each listed account has the full amount when topped up, that much more when added to, and what it had if it was covered or already granted |
| GrantTally.RoundLeaves | server/internal/maintenance/monthly_grant.go:64-120 | accounts not listed keep balance, used credit and grant entries |
| GrantTally.RoundIsCounted | server/internal/maintenance/monthly_grant.go:92-113 | skipped, replayed and granted count the accounts covered, already granted and the rest, and the ledger gains one entry for each grant |
| UsageTables.GroupedKeepsSums | server/internal/store/rollup.go:64-75 | grouping a day's calls by all dimensions changes no sum any report can ask for |
| UsageTables.GroupedShape | server/internal/store/rollup.go:16-35 | the inserted groups have distinct primary keys and stand for at least one call each |
| RollupRepo.Repo.RollDay | server/internal/store/rollup.go:56-87 | delete, insert and mark as one step replaces exactly the day's rows by its settled calls grouped, and reports how many rows it wrote |
| RollupRepo.Repo.PendingDays | server/internal/store/rollup.go:103-128 | the loop lists what the specification lists, starting at the earliest log |
| RollupRepo.PendingMeaning | server/internal/store/rollup.go:103-128 | that is the first so many days without a roll-up, in order, skipping none |
| RollupRepo.Repo.PurgeUsageLogsBefore | server/internal/store/rollup.go:133-155 | logs are deleted only when every day from the earliest log to the cut-off is rolled up, else nothing is; the count is right |
| ReportFields.PurgeIff | server/internal/store/rollup.go:133-155 | a purge deletes exactly the logs before the cutoff if every day from the earliest log up to it is rolled up, and nothing otherwise; aggregates stay |
| RollupRepo.Repo.Aggregate | server/internal/store/rollup.go:213-295 | a report reads the daily table up to the day after the watermark and the raw table from there, without overlap |
| ReportFields.UserFilter | server/internal/store/rollup.go:333-336 | asking for one user is asking for everything of the rows whose user column is that user |
| ReportFields.DepartmentFilter | server/internal/store/rollup.go:337-340 | the same for the department, zero included |
| ReportFields.ProjectFilter | server/internal/store/rollup.go:341-344 | the same for the project |
| ReportFields.ModelFilter | server/internal/store/rollup.go:345-348 | the same for the model |
| ReportFields.ChannelFilter | server/internal/store/rollup.go:349-352 | the same for the channel |
| ReportFields.KeyFilter | server/internal/store/rollup.go:353-356 | the same for the key |
| ReportFields.IntegrationFilter | server/internal/store/rollup.go:357-360 | the same for the integration |
| ReportFields.NoSuchFilter | server/internal/store/rollup.go:331-356 | an id of zero or less filters nothing |
| ReportFields.CallAddsToItsGroup | server/internal/store/rollup.go:254-328 | for each dimension a call adds one request and its own prompt, completion, cache, charged and cost numbers to the group named by its own column, and changes no other group |
| ReportFields.OnlySettledCount | server/internal/store/rollup.go:276-278 | settled calls are counted once, others never |
| ReportFields.RecordedCallIsReported | server/internal/store/rollup.go:226-295 | in every reachable state, however much is rolled up or purged, recording a call adds exactly its numbers to the reports of its group whose span holds its day, and changes no other |
| ReportFields.ReportedIff | server/internal/store/rollup.go:226-295 | in every reachable state a group has a row in an unfiltered report exactly when one of its calls was settled in the span |
| RollupRepo.Scheduler.RollupUsage | server/internal/maintenance/scheduler.go:147-165 | a round rolls the pending days up to yesterday in order, all of them or those before the first that fails |
| RollupRepo.Scheduler.PurgeUsageLogs | server/internal/maintenance/scheduler.go:197-213 | a purge uses the retention setting, does nothing when it is off, and skips silently when refused |
| Retention.NextKeeps | server/internal/store/rollup.go:56-155 | every append, repair, roll-up, purge and day change keeps: unrolled days still have their logs, rolled days have the right sums, no day with calls was passed over |
| Retention.RoundIsARun | server/internal/maintenance/scheduler.go:147-165 | the scheduler's loop, wherever it stops, is a run of that model |
| Retention.ReportsNeverChange | server/internal/store/rollup.go:226-295 | in every reachable state, for every filter, dimension, group and span of days, the report equals the same grouping over all settled calls ever made; the ungrouped case is the month total of server/internal/store/ops.go |
| Retention.WatermarkStaysGood | server/internal/store/ops.go:102-141 | a watermark read once stays usable while calls are recorded and days rolled, until a purge |
| Retention.ReportWithWatermark | server/internal/store/rollup.go:240-295 | a report with such an older watermark is still right |
| Retention.RollDayTwice | server/internal/store/rollup.go:54-87 | rolling the same day again leaves the tables exactly as they were |
| Retention.RollingIsSafeIff | server/internal/store/rollup.go:130-132 | in any reachable state rolling a day keeps its reports exactly when it had no calls or the raw table still has some |
| Canonical.StopReasonSurvivesIff | server/internal/relay/canonical.go:152-176 | a canonical stop reason survives the OpenAI wording exactly if it is end_turn, max_tokens or tool_use |
| OpenAIForms.FinishWords | server/internal/relay/canonical.go:152-176 | finish and stop reasons word for word; function_call is understood and never sent |
| StreamForms.CutsDoNotMatter | server/internal/relay/stream_codec.go:66-74 | the comparison of contents ignores where a text is cut |
| StreamForms.WholeIsKept | server/internal/relay/stream_codec.go:66-74 | and ignores nothing else: contents without cuts, empty texts and reasoning are compared as they are |
| AnthropicStream.Encoder.Encode | server/internal/relay/stream_codec.go:309-347 | each event yields the specified frames and state: blocks opened, switched and closed |
| AnthropicStream.Encoder.FinishStream | server/internal/relay/stream_codec.go:349-369 | the closing frames close an open block and default the stop reason |
| AnthropicStream.StreamFollowsGrammarIff | server/internal/relay/stream_codec.go:283-369 | a client reads one message_start, blocks 0, 1, 2, ... one at a time, one message_delta, one message_stop, with exactly the events' blocks and stop reason, if and only if argument deltas came inside tool blocks |
| AnthropicStream.Decoder.Decode | server/internal/relay/stream_codec.go:123-193 | one upstream frame yields the specified events; reasoning blocks yield none, not even a stop |
| AnthropicStream.DecodePreservesContent | server/internal/relay/stream_codec.go:107-193 | any complete upstream message becomes orderly events with the same text, tool calls and stop reason, reasoning left out |
| AnthropicStream.DecodeUndoesEncode | server/internal/relay/stream_codec.go:123-369 | decoding the encoder's frames recovers content and stop reason |
| OpenAIStream.Decoder.Decode | server/internal/relay/stream_codec.go:40-105 | a chunk is decoded delta by delta, whatever its choices and calls |
| OpenAIStream.ChunkingDoesNotMatter | server/internal/relay/stream_codec.go:40-105 | however a message is cut into deltas and chunks, if deltas are in turn the events carry its text, its calls by index and its stop reason, and with text first exactly its parts |
| StreamForms.ChoiceIsRead | server/internal/relay/stream_codec.go:66-103 | one more chunk adds its text, its calls in order, and its finish reason if it has one |
| StreamForms.CallIsRead | server/internal/relay/stream_codec.go:75-92 | a new index opens a call, an unnamed delta goes on with the arguments of the call it names |
| StreamForms.ChoicesInOrder | server/internal/relay/stream_codec.go:66-103 | a chunk with several choices reads like several chunks |
| OpenAIStream.ReadingsAgree | server/internal/relay/codec_openai.go:349-386 | for deltas in turn, reading parts in order and collecting calls by index agree |
| OpenAIStream.ContentFirstReading | server/internal/relay/codec_openai.go:371-384 | with no text after a call, the streamed parts are those of decoding the whole message |
| OpenAIStream.ContentPreservedIff | server/internal/relay/stream_codec.go:40-105 | for any stream whose calls are opened as 0, 1, 2, ... and whose argument deltas name an opened call, the events are orderly with the text and every call's own arguments if and only if the deltas are in turn |
| OpenAIStream.InTurnIsNumbered | server/internal/relay/stream_codec.go:75-92 | every stream in turn is numbered, so the condition applies to all of them |
| OpenAIStream.InterleavedArgumentsMix | server/internal/relay/stream_codec.go:75-92 | an instance of the failing half: with two calls open at once, arguments of one reach the other |
| OpenAIStream.Encoder.Encode | server/internal/relay/stream_codec.go:391-415 | each event yields its chunk; calls are numbered from zero |
| OpenAIStream.Encoder.FinishStream | server/internal/relay/stream_codec.go:417-435 | the stream ends with a finish reason, usage and the done marker |
| OpenAIStream.StreamCarriesContent | server/internal/relay/stream_codec.go:391-435 | a client of the encoded chunks reads, in turn, the same content and the matching finish reason |
| OpenAIStream.ContentSurvivesIff | server/internal/relay/stream_codec.go:76-86 | content survives the chunk form exactly when every tool call has an id or a name |
| OpenAIStream.DecodeUndoesEncode | server/internal/relay/stream_codec.go:40-435 | decoding the encoder's chunks recovers the content and the stop reason up to its wording |
| GeminiStream.Decoder.Decode | server/internal/relay/stream_codec.go:208-252 | parts and candidates are decoded in order, text before the call of the same part |
| GeminiStream.DecodePreservesContent | server/internal/relay/stream_codec.go:195-252 | any stream becomes orderly events with its text and calls in order, each call with an id of its own |
| StreamForms.CandidateIsRead | server/internal/relay/stream_codec.go:226-250 | one more candidate adds its texts and calls in order, calls named call_1, call_2, ..., and its stop reason in canonical words |
| StreamConduit.CanonicalStream.ProcessPayload | server/internal/relay/conduit.go:273-279 | a payload's events are encoded one after the other |
| StreamConduit.CanonicalStream.ProcessDone | server/internal/relay/conduit.go:281-288 | the closing frames are made once; asking again gives nothing |
| StreamConduit.StreamResponse | server/internal/relay/sse.go:54-99 | the relay loop makes the specified frames, closes when the upstream did not, and a client that goes away has received a prefix while the upstream is read to its end |
| StreamConduit.RelayIsWholeStream | server/internal/relay/sse.go:73-99 | with or without end markers, if no data follows one, the client's stream is the whole stream closed once |
| StreamConduit.OpenAIToAnthropic | server/internal/relay/conduit.go:250-290 | a numbered OpenAI upstream reaches an Anthropic client as one well-formed message with its text and calls if and only if its deltas are in turn, and then with its stop reason |
| StreamConduit.AnthropicToOpenAI | server/internal/relay/conduit.go:250-290 | an Anthropic upstream reaches an OpenAI client in turn with the same content and the matching finish reason |
| StreamConduit.GeminiToBoth | server/internal/relay/conduit.go:250-290 | a Gemini upstream reaches either client with its content and stop reason |
| AnthropicRequest.SplitDataURI | server/internal/relay/codec_anthropic.go:384-412 | the scan for separators computes media type and data as specified |
| AnthropicRequest.SplitUndoesJoin | server/internal/relay/codec_anthropic.go:145-152 | a joined base64 data URI splits into its parts (section 3 of RFC 2397) |
| AnthropicRequest.ImageSurvivesIff | server/internal/relay/codec_anthropic.go:277-284 | an image keeps URI and media type exactly when it is a base64 data URI of that type |
| AnthropicRequest.EncodeMessages | server/internal/relay/codec_anthropic.go:263-300 | the loops over messages and parts write the specified blocks |
| AnthropicForms.PartsWrittenInOrder | server/internal/relay/codec_anthropic.go:272-297 | every part but reasoning is written as one block in its place that says what the part says |
| AnthropicForms.MessagesWrittenInOrder | server/internal/relay/codec_anthropic.go:263-299 | system messages are left out, a tool's message is sent by the user, any other by its own role, in order |
| AnthropicForms.OtherImages | server/internal/relay/codec_anthropic.go:384-402 | an image that is no data URI is sent without data, as the type it claims or else as a PNG |
| AnthropicForms.DataURIIsSplit | server/internal/relay/codec_anthropic.go:384-403 | any data URI's type ends at its first semicolon or comma and its data begin after its first comma, whatever stands between |
| AnthropicForms.DataURIWithoutData | server/internal/relay/codec_anthropic.go:384-403 | without a comma there are no data, and without any separator the claimed type stands |
| AnthropicForms.FieldsWritten | server/internal/relay/codec_anthropic.go:198-242 | every field is written under its own name, and max_tokens is 4096 when the request has none |
| AnthropicForms.ChoicesWritten | server/internal/relay/codec_anthropic.go:243-261 | each tool choice is written as its own kind |
| AnthropicRequest.DecodeMessages | server/internal/relay/codec_anthropic.go:123-195 | the loops over messages and blocks read the specified parts, tool results flattened |
| AnthropicForms.StringIsOneTextBlock | server/internal/relay/codec_anthropic.go:132-144 | for any wire a string content is read as one text block of it would be |
| AnthropicForms.BlocksReadInOrder | server/internal/relay/codec_anthropic.go:135-168 | every block of a known kind becomes one part in its place, with its own id, name, text, media type, data and error flag |
| AnthropicForms.ResultForms | server/internal/relay/codec_anthropic.go:160-195 | a tool result given as blocks reads as the string of their texts in order |
| AnthropicForms.MessagesReadInOrder | server/internal/relay/codec_anthropic.go:123-171 | every message is read in its place, with its role, whatever form its content has |
| AnthropicForms.SystemForms | server/internal/relay/codec_anthropic.go:51-66 | a system given as blocks reads as the one string of their texts joined by newlines |
| AnthropicForms.FieldsRead | server/internal/relay/codec_anthropic.go:31-86 | every field is read from its own name, and a request without a model is refused |
| AnthropicForms.ChoicesRead | server/internal/relay/codec_anthropic.go:101-122 | each kind of tool choice is read as its mode, an unknown one as none |
| AnthropicRequest.DecodeUndoesEncodeIff | server/internal/relay/codec_anthropic.go:31-302 | decoding an encoded request returns it exactly when each of its parts can be expressed |
| OpenAIRequest.EncodeMessages | server/internal/relay/codec_openai.go:231-293 | each message becomes its tool messages and one chat message, in order, after the system text |
| OpenAIForms.AnswersWrittenInOrder | server/internal/relay/codec_openai.go:250-254 | each tool result becomes a tool message with its own id and text, in order |
| OpenAIForms.CallsWrittenInOrder | server/internal/relay/codec_openai.go:279-288 | each call is written with its own id, name and arguments, in order |
| OpenAIForms.PiecesWrittenInOrder | server/internal/relay/codec_openai.go:259-271 | with an image among them, texts and images are written as pieces in order |
| OpenAIForms.MessageWritten | server/internal/relay/codec_openai.go:235-290 | a message is its answers and then one message of its own role, if anything is left to say |
| OpenAIForms.SystemWritten | server/internal/relay/codec_openai.go:231-234 | the system text comes first, by the system |
| OpenAIRequest.DecodeMessages | server/internal/relay/codec_openai.go:98-163 | system texts are joined, tool messages and chat messages become canonical ones |
| OpenAIForms.MessagesReadInOrder | server/internal/relay/codec_openai.go:99-162 | every message but those of the system or the developer is read in its place with its role, content and calls; a tool's message answers its call |
| OpenAIForms.StringIsOnePiece | server/internal/relay/codec_openai.go:124-139 | a string content reads as one piece of text, an empty one as none |
| OpenAIForms.PiecesReadInOrder | server/internal/relay/codec_openai.go:129-145 | pieces of text and images are read in order |
| OpenAIForms.CallsReadInOrder | server/internal/relay/codec_openai.go:146-160 | calls are read in order with their id, name and arguments |
| OpenAIForms.SystemIsJoined | server/internal/relay/codec_openai.go:105-113 | the system text is what the system and the developer say as strings, line by line |
| OpenAIRequest.ConversationSurvives | server/internal/relay/codec_openai.go:98-293 | encoding and decoding keep system text, every answer and call with its id, every image, and who said what, all in order; reasoning is sent as plain text unless an image is beside it, and without reasoning parts what comes back is what was said |
| OpenAIRequest.EffortSurvivesIff | server/internal/relay/codec_openai.go:304-332 | the three efforts survive the trip through budgets and nothing else does; budgets survive only at three values |
| OpenAIForms.EffortWords | server/internal/relay/codec_openai.go:304-332 | the thresholds and budgets of each effort |
| Calculator.CalcTokenCredits | server/internal/pricing/calculator.go:61-75 | the sum over six token kinds times the multiplier, divided once, rounded up and saturated |
| Tariff.UsageCosts | server/internal/pricing/calculator.go:61-75 | the charge is the ceiling of the sum of the six products times the multiplier, but at least 100, over a hundred million, written out in numbers |
| Tariff.OneKindCosts | server/internal/pricing/calculator.go:61-75 | tokens of one kind alone cost the ceiling of their number times their own price times the multiplier over a hundred million, for each of the six kinds |
| Tariff.MillionCostsThePrice | server/internal/pricing/calculator.go:16-29 | so a million tokens of a kind at multiplier 100 cost exactly its price |
| Tariff.OtherPricesDoNotMatter | server/internal/pricing/calculator.go:61-75 | changing any other price leaves that charge as it was |
| Calculator.CeilIsExact | server/internal/pricing/calculator.go:40-57 | the result is the exact ceiling whenever that fits and the largest value otherwise |
| Calculator.CreditsMonotone | server/internal/pricing/calculator.go:59-75 | credits never fall when any usage, price or the multiplier rises |
| Calculator.SplitCostsAtMostOneMore | server/internal/pricing/calculator.go:59-75 | billing a usage in two pieces costs the same or one credit more |
| Calculator.EstimateCoversFinal | server/internal/relay/pipeline.go:283-295 | usage within the estimate, without audio and with cache no dearer than input, costs no more than the pre-charge |
| Tariff.EstimateCosts | server/internal/relay/pipeline.go:283-295 | the pre-charge is for the prompt's tokens or the minimum, and the output the client asks for or the default, written out in numbers |
| Calculator.SettleNeverClamps | server/internal/relay/session.go:129-134 | settling such a call only gives credits back and never clamps |
| Calculator.ConvertUSDToCredits | server/internal/pricing/convert.go:70-80 | zero for anything not positive, otherwise the ceiling of the converted price |
| Calculator.ConvertMicroUSDTToCredits | server/internal/pricing/convert.go:46-54 | the same for costs, without mark-up |
| Calculator.MarkupNeverLoses | server/internal/pricing/convert.go:20-38 | income equals cost at a mark-up of 100 and is no smaller above |
| Calculator.EvaluatePeakMultiplier | server/internal/pricing/peak.go:19-45 | the largest matching multiplier, never below 100 |
| Display.DetailDecimals | server/internal/pricing/display.go:10-19 | the first power at which the wrapping loop stops, or that it never stops; it stops for every rate up to 10^18 |
| Display.DetailDecimalsIsLeastIff | server/internal/pricing/display.go:5-19 | the loop ends with the least sufficient number of decimals if and only if the rate is at most 10^18 |
| Display.CreditsToDecimalString | server/internal/pricing/display.go:27-71 | the padding and the point produce the specified text |
| Display.PrintedReadsBack | server/internal/pricing/display.go:21-61 | read back, the text is within half a unit of the last place of the exact quotient, halves away from zero |
| Display.PrintedIsExact | server/internal/pricing/display.go:21-26 | at a rate of 10^decimals reading back gives the credits, so rows add up exactly |
| Display.PrintsANumeralIff | server/internal/pricing/display.go:31-34 | the text is a numeral for every amount but the smallest 64-bit one |
| Limiter.MemoryLimiter.Allow | server/internal/ratelimit/limiter.go:39-65 | trimming, sweeping and counting give the specified answer and buckets |
| Limiter.MemoryLimiter.Sweep | server/internal/ratelimit/limiter.go:68-76 | removes exactly the buckets idle for twice the caller's window |
| Limiter.AllowIsHistory | server/internal/ratelimit/limiter.go:38-65 | in every run a call is accepted exactly when fewer than limit accepted calls lie in the closed window ending now |
| Limiter.NoBurst | server/internal/ratelimit/limiter.go:38-65 | no closed interval of the window's length ever holds more than limit accepted calls |
| LimiterHistory.AllowedIff | server/internal/ratelimit/limiter.go:38-65 | counted over the calls of the run themselves, a call is accepted exactly when fewer of its key's accepted calls than its limit lie in the closed window ending now |
| LimiterHistory.NoBurstOfAccepted | server/internal/ratelimit/limiter.go:38-65 | no closed interval of the window's length holds more accepted calls of a key than its limit |
| Limiter.SharingIsSafeIff | server/internal/ratelimit/limiter.go:67-76 | two windows may share a limiter exactly when neither is more than twice the other |
| FailureLock.FailureLocker.RecordFailure | server/internal/ratelimit/failure_lock.go:48-71 | a failure continues or restarts the count and locks at the threshold |
| FailureLock.FailureLocker.Reset | server/internal/ratelimit/failure_lock.go:74-86 | a success clears the count but lifts no lock |
| FailureLock.SweepingIsInvisible | server/internal/ratelimit/failure_lock.go:88-97 | for a fixed lock time no later question is answered differently because of sweeping |
| FailureLock.StreakLocksAtThreshold | server/internal/ratelimit/failure_lock.go:46-71 | failures each within the lock time of the last count up and lock exactly at the threshold |
| FailureLock.LockedIff | server/internal/ratelimit/failure_lock.go:38-97 | over any events a key is locked exactly while the lock time runs after a failure that completes another threshold of failures in a row; a success or a gap longer than the lock time starts the row again and ends no lock |
| Gate.ConcurrencyGate.Acquire | server/internal/ratelimit/limiter.go:109-127 | refuses for the first full layer, changing nothing, or takes every slot it should |
| Gate.ConcurrencyGate.Release | server/internal/ratelimit/limiter.go:138-153 | gives slots back and forgets a user without requests |
| Gate.LeaveMirrors | server/internal/ratelimit/limiter.go:137-153 | a matched release decrements every counter; no saturation takes effect |
| Gate.CountersAreRequestsInFlight | server/internal/ratelimit/limiter.go:94-153 | in every run the counters are the requests in flight, in total, large, and by user |
| Gate.LimitsHold | server/internal/ratelimit/limiter.go:88-127 | with fixed limits no reachable state exceeds any of them |
| Gate.AdmittedIff | server/internal/ratelimit/limiter.go:106-127 | in every run a request is let in exactly when user, total and, if it is large, large requests in flight are each below their limit, and is told the first layer that is not |
| Routing.SelectChannel | server/internal/relay/selector.go:12-40 | the chosen channel is a non-excluded one of the highest available priority, the one whose tickets the draw hit; none exactly when all are excluded |
| Routing.OneOwner | server/internal/relay/selector.go:27-37 | no draw belongs to two channels |
| Routing.ChosenByWeightPlusOne | server/internal/relay/selector.go:9-37 | exactly weight plus one of the possible draws pick a top channel |
| Routing.AffinityTable.Lookup | server/internal/relay/affinity.go:91-106 | finds an unexpired binding, refreshing its access time only |
| Routing.AffinityTable.Bind | server/internal/relay/affinity.go:109-128 | binds for 30 minutes; past 10 000 entries it drops the expired ones and then only as many as needed, the least recently used first |
| Routing.AffinityTable.Evict | server/internal/relay/affinity.go:132-151 | no unexpired entry goes while there is room or a less recently used one stays |
| Routing.BindingsAreSeparateIff | server/internal/relay/affinity.go:56-58 | two models' bindings never meet exactly when neither name with its colon starts the other |
| Routing.SelectWithAffinity | server/internal/relay/affinity.go:195-228 | whatever the table holds, the choice is a top channel and exists whenever any is left; a hit is the bound channel, and the outcome says which case applied |
| Retry.TryChannel | server/internal/relay/retry.go:55-136 | an attempt that ends the request makes exactly one billing call, Settle exactly for a transformed or streamed success; any other makes none; only a channel that answers is bound to the client |
| Retry.RelayWithRetry | server/internal/relay/pipeline.go:517-577 | each attempt goes to the best channel left, all but the last are decrypt, build, network or retryable failures, and the request makes one billing call: Settle if and only if the last attempt is a transformed or streamed success; the channel that answered is bound, no other |
| Retry.ServedStays | server/internal/relay/retry.go:121-125 | with room in the affinity table the requests of the next half hour find the channel that answered, and no later ones |
| Retry.NoRepeatNoRise | server/internal/relay/pipeline.go:542-566 | no channel is tried twice and priorities never rise |
| Retry.GivingUpIsExhaustion | server/internal/relay/pipeline.go:542-569 | with enough retries, giving up means every candidate was tried |
| Truncate.Shorten | server/internal/strutil/truncate.go:18-34 | the backward scan ends at the last character start, and invalid bytes are removed only when there are any |
| Truncate.ShortenedIsValid | server/internal/strutil/truncate.go:9-34 | for any bytes the result is valid UTF-8 (section 4 of RFC 3629) within the bound |
| Truncate.ShortenedKeepsValidText | server/internal/strutil/truncate.go:22-31 | valid text is kept as a prefix, whole when it fits, else less than four bytes short of the bound |
| Truncate.ValidPrefixIff | server/internal/strutil/truncate.go:24-28 | a prefix of valid text is valid exactly when it stops at the start of a character |
| Truncate.CleanedKeepsValid | server/internal/strutil/truncate.go:30-33 | removing invalid bytes leaves valid text as it is, so the validity test before it only saves work |
| Truncate.CleanedKeepsCharacters | server/internal/strutil/truncate.go:33 | removing invalid bytes keeps every character that precedes them, in order |
| CodePoints.EncodedIsACharacter | server/internal/strutil/truncate.go:24-33 | what counts as a character is the UTF-8 encoding of a code point (section 3 of RFC 3629), of one to four bytes |
| CodePoints.CharacterIsEncoded | server/internal/strutil/truncate.go:24-33 | and nothing else does |
| CodePoints.ValidIff | server/internal/strutil/truncate.go:30-31 | bytes are valid exactly when they encode some sequence of code points |
| CodePoints.CleaningKeeps | server/internal/strutil/truncate.go:33 | an encoded code point stays, of whatever length, and cleaning goes on behind it |
| CodePoints.CleaningSkips | server/internal/strutil/truncate.go:33 | a byte at which none starts goes, it alone |
| Truncate.ShortenedTwice | server/internal/strutil/truncate.go:18-34 | shortening again changes nothing |

## Left out

- Handler.Serve: takes one request's steps on the service one after the other; Handler.HandlerCallsAreEnabled is the statement with other requests in between.
- Retry.TryChannel: what becomes of an attempt is a parameter.
- Retry.RelayWithRetry: models which billing calls a request makes, not the HTTP answers, log fields or health counters beside them; the embeddings and images handler, which has the same loop without affinity, is not modelled separately.
- Interleaving.Serializable: takes the ledger insert and the commit as one step, and leaves out administrators' edits of keys.
- Routing.SelectChannel: requires weights of at least zero, as the table's constraint does, and candidates sorted by priority, as the query does; a uniform draw is any value below the bound.
- GeminiStream.DecodePreservesContent: thought parts are not modelled; the whole-response decoder treats them differently.
- AnthropicStream.DecodePreservesContent: only text, tool_use and thinking blocks; other upstream block types are not modelled.
- AnthropicStream.RelayedMessage: composes decoder and encoder of one protocol, which the conduit never does; a stream between equal protocols is passed on unchanged.
- StreamConduit.RelayIsWholeStream: assumes no data after the end marker; usage numbers in the closing frames are not modelled.
- AnthropicRequest.DecodeUndoesEncodeIff: requests with seed, logprobs or response format, which the protocol's check rejects beforehand, are not part of the request type.
- OpenAIRequest.ConversationSurvives: covers the messages; sampling fields and tool definitions are copied one by one and are not modelled there. The error flag of a tool result has no place in that protocol and is lost.
- Retention.ReportsNeverChange: a log is visible from the moment it is stamped, one scheduler runs (the deployment is a single process), display names and the order of rows are not modelled, and orphan repair never meets a settled log, which is what ProtocolRuns.OneOutcomeIffSafe gives.
- Limiter.AllowIsHistory: clock readings are taken in the order in which calls take the lock, although the code reads the clock first.
- MonthlyGrant.GrantMonthlyCredits: a failing account query between two batches and an invalid mode setting are not modelled.
- MonthlyGrant.SecondRoundIsIdle: says nothing about other bookings between two rounds; MonthlyGrant.GrantedAtMostOnce covers every history.
- Creating users and keys during a run of Protocol: any set of them may be there, untouched, from its start.
- Integers are unbounded except in Display and where a result is saturated: the 64-bit overflow of balances, counters and durations is not modelled.
- Time zones and daylight saving: a day is a number, and two times of the same day have the same number.
- JSON text, number parsing and the byte form of frames: payloads are typed values, tool arguments are compared as given.
- Notes, operators, department and project snapshots of ledger rows, request counts and last-used times.
- Usage-log writing apart from what the reports need, recordings, alerts and metrics.
- The relay's advisory check of daily spending before a pre-charge; the authoritative check inside the transaction is modelled.
- HTTP handlers, authentication, the web applications, e-mail and webhooks, key generation and encryption.
