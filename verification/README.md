# lurus-hub: a verified model of the money paths, routing, conversion and erasure

This project models, in Dafny, the parts of lurus-hub where a request touches several
pieces of state that can fail independently, and proves what those parts keep over every
input, every failure pattern and every interleaving.

| file | models |
|---|---|
| `ChargePath.dfy`, `ChargeLaws.dfy` | one request's charge: pre-consume, settle, refund, realtime sessions, over user ledger, key ledger, tenant pool, daily counter and platform wallet hold |
| `FreezeRace.dfy` | any number of pre-consume calls racing on one user and one limited key |
| `Outbox.dfy`, `OutboxProtocol.dfy`, `OutboxLateness.dfy` | the billing outbox: backoff, replay loop, and the lease protocol of its workers |
| `StrandedTopup.dfy` | crediting stranded topups, raced by sweeps, online retries and operators |
| `Cooldown.dfy`, `CooldownProtocol.dfy` | channel cooldowns of one process, and replicas marking, clearing and snapshotting over Redis |
| `ChannelSelect.dfy` | channel selection: predicates, one group, the auto-group walk, the retry loop |
| `ClaudeStream.dfy` | the OpenAI-to-Claude stream converter |
| `CacheInference.dfy` | inferring cache-creation tokens from OpenRouter's cost |
| `Erasure.dfy` | the privacy erasure cascade under crashes |
| `Sunday.dfy`, `Csv.dfy` | Sunday substring search; the CSV printer and parser |

`dafny verify dfyconfig.toml` checks everything.

## How the environment appears

- A call into a database, Redis or the platform is one atomic step that may fail. Which
  calls fail is an argument (`Weather`, `PreWeather`, `Fault`, `Fate`, `Write`) or a step of
  the state machine, so every statement holds for every failure pattern. Where it matters, a
  call may also take effect and still report an error.
- Processes and replicas interleave their steps arbitrarily. The outbox workers read one
  shared clock; no other module compares clocks of different replicas, except that a
  cooldown's sync stamp and a refresh's start are read on the same process.
- Quota is counted in integers and the wallet in the same units. Ratios and costs are reals.
- The repository's weighted channel draw is any accepted channel, of the highest priority
  when the retry index is 0. It returns one exactly when one is accepted.
- One attempt of a channel selection reads the candidate lists, the cooldowns and the clock
  once. The auto-group list does not change during a request.

## Where the code and its description part

Each of these is proved, with the exact condition where there is one.

- `SundaySearch` agrees with substring search on every text if and only if the pattern is
  ASCII (`Sunday.ExactIffAscii`). For every other pattern there is a text it gets wrong.
- A nil error of `TryFinalizeStrandedTopup` is documented as "reconciled". It is returned with
  a manually closed row exactly when an operator closed it between the first read and the
  claim (`StrandedTopup.NilMeansClosed`).
- A settlement leaves the hold open exactly when phase 1 failed outside advisory mode, or
  nothing was used and nothing frozen (`ChargeLaws.SettlementDischargesHold`). A refused
  pre-consume releases it except after a failed balance read (`ChargePath.Reserved`).
- Settlements and the compensation of a failed key write debit without a condition. A
  balance goes below zero exactly when such a write finds too little
  (`FreezeRace.SolventIffCovered`): a request that cost more than its freeze can overdraw
  both ledgers, a compensated refund the user's. Pre-consume calls alone never do.
- In advisory mode the compensation of a failed key write undoes a user debit that may never
  have landed. The user then gains what was never taken, exactly when both writes failed and
  the compensation did not (`ChargeLaws.AdvisoryKeyFailure`).
- A usage that counts cached tokens into its prompt is billed for exactly its prompt tokens if
  and only if its five-minute and one-hour cache writes do not exceed its cache writes in all;
  otherwise for more (`CacheInference.SettlementPerToken`).
- The outbox's exclusion rests on the lease arithmetic and on nothing else: runs within given
  bounds on a claim and an entry keep workers apart if and only if a claim and a full batch
  fit inside the lease (`OutboxLateness.ExclusiveIffFitLease`).
- A refresh drops a live deadline exactly when it was synced by a mark begun before the
  refresh, and the index listed less when it was read or the channel was cleared since
  (`CooldownProtocol.DropsIff`). So a refresh that started after a mark but read before its
  Redis write drops it, though the index lists it (`CooldownProtocol.FreshMarkCanBeDropped`).
- The stream converter drops content in the cases `ClaudeStream.LossFree` names, and only in
  those. Tool calls that arrive together without an index get block numbers I, I+1, I+3 and
  so on, since the running index is moved inside the loop: consecutive exactly when there are
  at most two (`ClaudeStream.UnindexedCallsDrift`). The close stops a block even if none
  was opened. Tool calls started together overlap (`ClaudeStream.ParallelCallsOverlap`), and
  so does reasoning after text (`ClaudeStream.BalancedIffSteady`).
- OpenRouter's cost is compared with the integer 0 as an interface value, so a cost of 0.0 and
  a missing cost both enter the inference, which reads them as 0
  (`CacheInference.NoCostInference`).
- The erasure's last update does not see a soft-deleted user, and the request completes all
  the same: a user row ends anonymous exactly when it was not soft-deleted by then, or was
  anonymous before (`Erasure.UserEndsAnonymousIff`).
- A log row whose user name already equals the erasure marker keeps its other columns
  (`Erasure.LogEndsAnonymousIff`).
- `parseCsv(toCsv(rows))` without a byte-order mark loses one if the text starts with it
  (`Csv.RoundTripWithoutMark`).

## Model

| member | source | states |
|---|---|---|
| `ChargePath.Request.AbandonPreAuth` | internal/app/pre_consume_quota.go:43-78 | An open hold is released, parked or lost, exactly one of them, and its id cleared; without a hold nothing happens |
| `ChargePath.Request.SettleOrPark` | internal/app/quota_settle.go:144-169 | The open hold is settled, parked or lost for the amount, its id cleared, the charge recorded |
| `ChargePath.Request.SettlePlatformWallet` | internal/app/quota_settle.go:28-135 | The wallet leg equals its closed form: a consistent positive total is charged once (hold settled or direct debit), an inconsistent or zero one releases the hold |
| `ChargePath.Request.DebitTenantPool` | internal/app/quota_pool.go:56-121 | Recorded exactly when the pool is gated and its writes land, whether or not the key has a user; the balance moves by the amount and one draw row, debit or overdraft, says so |
| `ChargePath.Request.UpdateKeyLedger` | internal/app/quota.go:933-981 | Phase 3: the key moves, or the user debit and the pool draw are handed back |
| `ChargePath.Request.PostPoolAndKey` | internal/app/quota.go:916-981 | Pool and key legs together: net pool movement, draw rows, hand-back |
| `ChargePath.Request.PostLocalLedgers` | internal/app/quota.go:864-981 | Net movement of the four local ledgers for every failure pattern; nothing moves on the early return |
| `ChargePath.Request.PostConsumeQuota` | internal/app/quota.go:849-1059 | The whole settlement equals its closed form; it succeeds exactly in advisory mode or when neither phase 1 nor the key write failed |
| `ChargePath.Request.ReturnPreConsumedQuota` | internal/app/pre_consume_quota.go:25-39 | Refund of the freeze, then the hold given up |
| `ChargePath.Request.PreWssConsumeQuota` | internal/app/quota.go:164-235 | A usage event is posted exactly when readable and covered; a refused or per-call one changes nothing; when it succeeds |
| `ChargePath.Request.CloseRealtime` | internal/app/quota.go:341-345 | Closing a session hands the freeze back through a zero-total settlement |
| `ChargePath.Request.PreConsumeTokenQuota` | internal/app/quota.go:780-817 | The conditional key debit: verdict and balance, never below zero on a limited key |
| `ChargePath.Request.PreAuthorize` | internal/app/pre_consume_quota.go:110-146 | platformPreAuthorize with its re-entry guard: authorized or not, the hold carried over or granted, and the governance and advisory flags |
| `ChargePath.Request.Freeze` | internal/app/pre_consume_quota.go:192-289 | The freeze lands on both ledgers in full or on neither; what a failed rollback leaves; the reason of each refusal |
| `ChargePath.Request.ReserveLocally` | internal/app/pre_consume_quota.go:147-289 | Admission rule of the local gates, both directions, with the reason of each refusal |
| `ChargePath.Request.ReserveOrAbandon` | internal/app/pre_consume_quota.go:147-289 | An admitted request froze all or nothing, equally on both ledgers, with the key's exact balance where advisory mode waived a failed write; a refused one leaves no trace but a failed rollback and gives the hold up, except after a failed balance read |
| `ChargePath.Request.PreConsumeQuota` | internal/app/pre_consume_quota.go:110-290 | Admitted if and only if the platform authorizes it and the local gates admit it, with the hold then in force; refusal reasons and residue |
| `ChargeLaws.PlatformAnswer` | internal/app/pre_consume_quota.go:110-146 | A hold carried over is kept and none opened besides; a request not asked about, skipped or degraded opens none; otherwise authorized if and only if granted or degraded |
| `ChargeLaws.AdmissionRestsOn` | internal/app/pre_consume_quota.go:147-289 | What stands behind every admission: both caps, a read balance that covers the estimate outside advisory mode, and the whole estimate frozen on ledgers that had it, or balance and key allowance above the trust line |
| `ChargeLaws.AdmissionFollows` | internal/app/pre_consume_quota.go:147-289 | What suffices for admission; advisory mode waives the user balance and never the key allowance |
| `ChargeLaws.AdmissionTakes` | internal/app/pre_consume_quota.go:192-289 | An admission takes the freeze from each ledger the payer has and nothing else, and leaves the hold open |
| `ChargeLaws.RefusalLeavesNothing` | internal/app/pre_consume_quota.go:80-289 | A refusal whose rollback lands leaves every ledger as it was and gives the hold up, except after a failed balance read |
| `ChargeLaws.StepEmitsOneExit` | internal/app/quota_settle.go:28-169 | Any settlement or refund emits at most one wallet outcome; one that ends a hold names the open one and closes it |
| `ChargeLaws.RunConservesHold` | internal/app/quota_settle.go:28-169 | Over every run of calls, holds ended plus holds open is constant, and every exit added names the hold the run began with: a hold leaves exactly once |
| `ChargeLaws.NoLaterExit` | internal/app/pre_consume_quota.go:25-78 | Once the hold is gone, no later sequence of settlements and refunds, whatever fails, ends or opens one |
| `ChargeLaws.SettlementOutcome` | internal/app/quota_settle.go:28-169 | The outcome a settlement logs is what happened: settled if and only if the settle call succeeded, parked if and only if it failed and the outbox took it, else lost; likewise for a direct debit; one that does not charge adds no charge |
| `ChargeLaws.RefundOutcome` | internal/app/pre_consume_quota.go:25-78 | The same for a release: released, parked or lost as the calls went |
| `ChargeLaws.SettlementDischargesHold` | internal/app/quota.go:849-1059 | A settlement discharges the hold if and only if it did not abort and something was used or frozen; then by exactly one exit |
| `ChargeLaws.RefundDischargesHold` | internal/app/pre_consume_quota.go:25-78 | The refund always discharges it, by exactly one release outcome |
| `ChargeLaws.ChargedOnce` | internal/app/quota.go:849-1059 | For every payer, tenant-scoped keys and payers without a wallet included: settling an admitted request at cost q moves the key, the user and daily counter if there is a user, and the gated pool by q from where admission found them, whatever was frozen; the pool by exactly one draw row, a debit if and only if the balance covered it; a wallet is charged q once |
| `ChargeLaws.KeyFailureCompensated` | internal/app/quota.go:933-981 | Failed key write, landed compensation, for every payer with a key: key, and user if there is one, at minus the freeze, pool unchanged, nobody charged, hold released |
| `ChargeLaws.AdvisoryKeyFailure` | internal/app/quota.go:849-981 | In advisory mode a failed key write does not stop the charge, and the user is credited what was never taken exactly when the user debit failed too and the compensation landed |
| `ChargeLaws.RefundRestores` | internal/app/pre_consume_quota.go:25-39 | For every payer, the refund restores every ledger |
| `ChargeLaws.RelayRequest` | internal/app/quota.go:849-1059 | PreConsumeQuota, then PostConsumeQuota or ReturnPreConsumedQuota, on one request of any payer: served, every ledger the payer has moved by the cost, with one draw row, and the wallet was told once; not served or refused, every ledger is as it was, but for a key debit whose rollback failed |
| `ChargeLaws.LedgersMoveTogether` | internal/app/quota.go:864-981 | User and key move by the same amount if and only if no uncompensated key failure; a key without a user moves no user ledger; a failed call charges nothing |
| `ChargeLaws.RunKeepsPoolLedger` | internal/app/quota_pool.go:56-145 | Over every run, pool balance plus recorded draws is constant, overdrafts and hand-backs included |
| `ChargeLaws.SessionMovesAll` | internal/app/quota.go:164-235 | For every payer, any sequence of landed usage events moves every ledger it has and its wallet by their sum |
| `ChargeLaws.SessionFirstCharge` | internal/app/quota_settle.go:28-135 | The first wallet outcome of a session is the first positive event's, on the hold |
| `ChargeLaws.RealtimeSessionExact` | internal/app/quota.go:164-345 | A closed session moved user, key, pool, daily counter and wallet by exactly the sum of its events; the hold was settled by the first positive event or released at close |
| `ChargeLaws.CloseRestores` | internal/app/quota.go:341-345 | Closing gives the freeze back, charges nothing, releases an unused hold |
| `FreezeRace.FreezesConserve` | internal/app/pre_consume_quota.go:192-289 | In every interleaving of pre-consumes, settlements and refunds, balance plus freezes, spending and debits in flight is constant on both ledgers, any writes failing |
| `FreezeRace.OverdrawnIff` | internal/app/quota.go:864-981 | A step takes a balance below zero if and only if it is an unconditional write that finds too little: a settlement above its freeze, or the compensation of one below it |
| `FreezeRace.SolventIffCovered` | internal/app/quota.go:864-981 | Over every interleaving, neither balance is ever below zero if and only if no unconditional write finds too little |
| `FreezeRace.GateNeverOverdraws` | internal/app/pre_consume_quota.go:147-289 | In every interleaving of pre-consume calls alone, whatever fails, neither balance goes below zero |
| `FreezeRace.KeyNeverNegative` | internal/app/quota.go:780-817 | The key stays non-negative in every interleaving whose settlements stay within their freezes, compensated refunds included |
| `FreezeRace.CompensationOverdraws` | internal/app/quota.go:933-981 | A run in which the unconditional compensation overdraws the user |
| `FreezeRace.SettlementOverdraws` | internal/app/quota.go:864-981 | For every cost above its freeze, a run with every write landing that overdraws both ledgers |
| `FreezeRace.CallMovesWhatItTook` | internal/app/pre_consume_quota.go:192-289 | In every interleaving each call moved the ledgers by exactly what it holds or spent |
| `FreezeRace.RefusedCallLeavesNoTrace` | internal/app/pre_consume_quota.go:96-101 | A call refused with its rollback landed, or refunded, has moved neither ledger, whatever the other calls are doing |
| `Outbox.Backoff` | internal/app/billing_outbox.go:136-139 | Never more than five minutes |
| `Outbox.BackoffTable` | internal/app/billing_outbox.go:136-139 | The nine delays a row can wait |
| `Outbox.RetryHorizon` | internal/app/billing_outbox.go:141-149 | The delays sum to 1510 s, so a hold's hour outlives the longest request plus all retries |
| `Outbox.Table.ProcessEntries` | internal/app/billing_outbox.go:207-265 | On the columns of each claimed row: unchanged if its write did not land or it is no longer processing; else done if and only if the call was accepted, counters untouched; failed if and only if no retry can help or it is the tenth failure; else pending and due after the backoff; no other row moves |
| `OutboxProtocol.FinishedRowsAbsorb` | internal/app/billing_outbox.go:207-265 | In every interleaving, with no timing assumption, done and failed rows never change again |
| `OutboxProtocol.NoRowIsWedged` | internal/app/billing_outbox.go:27-67 | With no timing assumption, every unfinished row is claimable from five minutes after its last write |
| `OutboxProtocol.HeldIsNotDue` | internal/app/billing_outbox.go:27-67 | While a worker's batch fits the lease, a row it holds is not due for any rival |
| `OutboxProtocol.StepKeepsInv` | internal/app/billing_outbox.go:154-268 | Every timely step keeps: claims match their rows, no two workers share a row, retry counts equal recorded failures |
| `OutboxProtocol.TimelyRunsExclude` | internal/app/billing_outbox.go:17-67 | In every timely interleaving no row is held twice, retry_count equals the failures recorded, at most ten |
| `OutboxProtocol.FailureCountsOnce` | internal/app/billing_outbox.go:207-265 | A recorded failure raises retry_count by exactly one; failed exactly at ten or on a final refusal; otherwise due after the backoff |
| `OutboxProtocol.DoneIffAccepted` | internal/app/billing_outbox.go:222-228 | A landed write by the worker that holds a row leaves it done if and only if the platform accepted the call, and an acceptance counts no failure |
| `OutboxProtocol.AcceptedIsNotReplayed` | internal/app/billing_debit_outbox.go:66-85 | After a landed acceptance, in every later state of every run, the row is done and no worker can claim it |
| `OutboxProtocol.BackoffIsServed` | internal/app/billing_outbox.go:27-67 | In every interleaving, a row refused at t is next claimed no earlier than t plus its backoff |
| `OutboxProtocol.SourceBoundsFit` | internal/app/billing_outbox.go:17-67 | Fifty 5 s calls with sub-second writes fit the 300 s lease |
| `OutboxLateness.LateWorkerIsRobbed` | internal/app/billing_outbox.go:154-172 | For all bounds under which a full batch does not fit the lease, a run within those bounds in which two workers hold one row |
| `OutboxLateness.ExclusiveIffFitLease` | internal/app/billing_outbox.go:17-67 | Every run within the bounds keeps workers apart if and only if a claim and fifty entries fit inside the lease |
| `StrandedTopup.Store.RecordStrandedTopup` | internal/app/credit_pool_reconcile.go:117-140 | Recording is idempotent per tenant and event and rejects an empty event or a non-positive amount |
| `StrandedTopup.Store.FinalizeStrandedTopup` | internal/app/credit_pool_reconcile.go:219-293 | The transaction credits all or nothing for every failing statement; each outcome both ways |
| `StrandedTopup.Store.ReconcileStrandedTopups` | internal/app/credit_pool_reconcile.go:301-345 | The sweep is the run that finalizes each listed event in turn; its counters are the events credited and those that failed again, judged at their turn; when no two open events share a pool, those with room and no fault in the starting state, and the other open ones |
| `StrandedTopup.SweepCreditsWhatFits` | internal/app/credit_pool_reconcile.go:321-345 | For every sweep, a listed event that is open, has room when its turn comes and meets no fault ends reconciled with its credit in the history; any other is left as it was |
| `StrandedTopup.TurnsDoNotMatter` | internal/app/credit_pool_reconcile.go:321-345 | When no two open events share a pool, each turn finds its event and pool as the sweep found them, so the counts are those of the starting state |
| `StrandedTopup.SweepTouchesOnlyListed` | internal/app/credit_pool_reconcile.go:301-345 | A sweep touches no event it does not list, and a listed one is reconciled or as it was |
| `StrandedTopup.CreditedAtMostOnce` | internal/app/credit_pool_reconcile.go:159-345 | In every interleaving each (tenant, event) is credited at most once and reconciled rows were credited |
| `StrandedTopup.BalanceExplainedByDraws` | internal/app/credit_pool_reconcile.go:219-293 | In every interleaving a pool's balance minus its net draws is constant |
| `StrandedTopup.CeilingKept` | internal/app/credit_pool_reconcile.go:219-293 | In every interleaving without an operator's forced credit no pool exceeds its ceiling |
| `StrandedTopup.CreditIffReconciled` | internal/app/credit_pool_reconcile.go:219-293 | A credit happens exactly when the row goes from stranded to reconciled, for its amount; a failed attempt changes nothing; another tenant's row with the same event id is untouched |
| `StrandedTopup.ClosedStays` | internal/app/credit_pool_reconcile.go:159-195 | In every run a closed row stays as it is, and is closed by hand only if someone did |
| `StrandedTopup.NilMeansClosed` | internal/app/credit_pool_reconcile.go:159-195 | What a nil error means: closed; manually closed exactly when an operator won the race |
| `StrandedTopup.NilCanMeanManuallyClosed` | internal/app/credit_pool_reconcile.go:183-192 | For every open row, the run in which nil comes with a manually closed row |
| `Cooldown.DropExpired` | internal/app/channel_cooldown.go:147-151 | The pruning loop keeps exactly the live deadlines |
| `Cooldown.DropCleared` | internal/app/channel_cooldown.go:234-239 | The merge loop discards exactly the slots of channels cleared since the read began |
| `Cooldown.DropSuperseded` | internal/app/channel_cooldown.go:240-254 | The merge loop discards exactly the earlier-synced deadlines Redis no longer lists |
| `Cooldown.DropChannel` | internal/app/channel_cooldown_clear.go:22-34 | The clear loop deletes exactly one channel's slots |
| `Cooldown.Process.RecordLocal` | internal/app/channel_cooldown.go:140-155 | A mark's first section: prune, set, drop the sync stamp; past deadlines are ignored |
| `Cooldown.Process.BeginSnapshot` | internal/app/channel_cooldown.go:198-212 | At most one refresh per interval, stamped with the clear generation |
| `Cooldown.Process.MergeSnapshot` | internal/app/channel_cooldown.go:233-255 | The merge equals its specification on all three maps |
| `Cooldown.Process.ForgetChannel` | internal/app/channel_cooldown_clear.go:17-34 | Exactly the channel's slots leave the local map, its sync stamps and the snapshot |
| `Cooldown.Process.CoolingUntil` | internal/app/channel_cooldown.go:258-271 | Non-zero exactly while some map holds a deadline ahead, and then the latest of them |
| `Cooldown.MarkCools` | internal/app/channel_cooldown.go:140-155 | A mark cools its slot until its deadline, longer only by the last snapshot, and changes no other slot from then on |
| `Cooldown.ClearLifts` | internal/app/channel_cooldown_clear.go:17-34 | A clear lifts every cooldown of the channel and changes none of another |
| `CooldownProtocol.StepKeepsInv` | internal/app/channel_cooldown.go:136-255 | Every step of every mark, refresh, clear and reset keeps: a synced deadline is one the index took, deadlines are positive, generations are past |
| `CooldownProtocol.DiscardsOnlyAccepted` | internal/app/channel_cooldown.go:234-254 | In every run a snapshot takes a local deadline out only if the index once took exactly that deadline |
| `CooldownProtocol.NeverAcceptedStays` | internal/app/channel_cooldown.go:136-175 | In every run a deadline the index never took stays in force until re-marked, cleared, reset or past |
| `CooldownProtocol.SnapshotCannotUndoClear` | internal/app/channel_cooldown_clear.go:17-75 | A snapshot under way when a clear finishes, merged after any further steps, brings back no slot of the channel |
| `CooldownProtocol.ClearLasts` | internal/app/channel_cooldown_clear.go:17-34 | In every run from a clear on, no slot of the channel cools in that process until the channel is marked there or a refresh merges; other channels keep their cooldown |
| `CooldownProtocol.ClearEmptiesIndex` | internal/app/channel_cooldown_clear.go:36-65 | A clear's Redis leg empties the index of the channel unless a mark of it runs in between |
| `CooldownProtocol.RefreshDropsCleared` | internal/app/channel_cooldown.go:198-255 | Any replica's refresh begun after that drops what it had synced earlier, unless a new mark arrives |
| `CooldownProtocol.DropsIff` | internal/app/channel_cooldown.go:198-255 | Over every run, a refresh drops a deadline still ahead if and only if it was synced by a mark begun earlier and the index listed less when read, or the channel was cleared since |
| `CooldownProtocol.FreshMarkCanBeDropped` | internal/app/channel_cooldown.go:140-173 | For every slot, deadline and pair of times, steps from the state below that leave the slot free though the index lists it |
| `CooldownProtocol.OvertakenIsReachable` | internal/app/channel_cooldown.go:198-232 | That state, a mark overtaken by a refresh that read an empty index, is reached from the start |
| `ChannelSelect.FilterWhere` | internal/app/channel_cooldown.go:297-380 | The combined predicate accepts exactly the eligible channels; the probes report the earliest deadline among those only cooldown rejects, and whether modality emptied the pool |
| `ChannelSelect.SelectOnce` | internal/app/channel_select.go:301-319 | A channel exactly when one is accepted, of the top tier when used ones are excluded; otherwise the one miss that explains it |
| `ChannelSelect.SelectWhere` | internal/app/channel_select.go:283-291 | Used channels are excluded softly: one comes back only if the group has no other; cooling is never relaxed |
| `ChannelSelect.Walk.RunGroups` | internal/app/channel_select.go:170-236 | One walk finds the first serving group from the index on, leaves the walk state at it or past the end, and tallies every group's miss |
| `ChannelSelect.Walk.SoftPass` | internal/app/channel_select.go:240-263 | The refusal is the earliest recovery if anything cools, else the provider filter, else the modality, else nothing |
| `ChannelSelect.Walk.WalkGroups` | internal/app/channel_select.go:237-249 | Strict pass, rewind, soft pass: the state after is that of one walk |
| `ChannelSelect.Walk.Select` | internal/app/channel_select.go:112-272 | An attempt for the auto group: the pin when the retry index is 0 and it passes; else an untried channel of the first group that has one; else a tried one; else a refusal |
| `ChannelSelect.Walk.SelectInGroup` | internal/app/channel_select.go:264-271 | An attempt for a token bound to one group |
| `ChannelSelect.ServedPasses` | internal/app/channel_cooldown.go:304-380 | Every served channel, pinned or drawn, passes modality, provider filter and cooldown |
| `ChannelSelect.TriedOnlyAsLastResort` | internal/app/channel_select.go:237-249 | If any group from the index on has an eligible untried channel, an untried one is served, from no later group |
| `ChannelSelect.EligibleIsServed` | internal/app/channel_select.go:237-263 | While any group from the index on has an eligible channel, tried or not, one is served |
| `ChannelSelect.BestOfGroup` | internal/app/channel_select.go:301-319 | On the first try of a group the channel served has the highest priority among the eligible, untried before tried |
| `ChannelSelect.RefusalWaits` | internal/app/channel_select.go:240-263 | If any channel left is kept out by its cooldown alone, a refusal is a wait, no longer than that channel needs |
| `ChannelSelect.WaitIsForSomething` | internal/app/channel_select.go:240-263 | A wait ends when some channel kept out by its cooldown alone, or a group of parked keys, recovers |
| `ChannelSelect.AttemptSpends` | internal/app/channel_select.go:146-249 | A served attempt and the bump after it move (groups - index, RetryTimes - retry) down, the index never back, and a later group starts with a full budget |
| `ChannelSelect.IndexNeverMovesBack` | internal/app/channel_select.go:146-249 | Over every request the group index never moves back, the strict pass's rewind included |
| `ChannelSelect.ServedAtMost` | internal/app/channel_select.go:29-53 | From any point of a request, at most the attempts ahead are served |
| `ChannelSelect.RequestBound` | internal/app/channel_select.go:146-249 | At most groups * (RetryTimes + 1) attempts are served, one more if a pin is in play |
| `ChannelSelect.Attempts` | internal/adapter/handler/relay.go:407-440 | The relay's loop of Select and IncreaseRetry, on any environments and pins: its attempts are a legal run of the walk, it gives up only when the budget is spent or the next attempt finds nothing eligible, and serves no more than the bound |
| `ChannelSelect.BoundIsReached` | internal/app/channel_select.go:217-229 | With cross-group retry some run reaches the bound |
| `ClaudeStream.Converter.TerminalEvents` | internal/app/convert.go:549-568 | The closing pair goes out, once, as soon as usage is known |
| `ClaudeStream.Converter.FirstContent` | internal/app/convert.go:627-707 | What the first chunk's events carry; each event where it is allowed unless tool calls and text are mixed |
| `ClaudeStream.Converter.ToolContent` | internal/app/convert.go:734-776 | The tool calls of a later chunk read to the client as specified, block by block; all their arguments are carried, never inside a text or thinking block |
| `ClaudeStream.Converter.PlainContent` | internal/app/convert.go:777-825 | Reasoning or text of a later chunk is carried inside a block of its kind and index |
| `ClaudeStream.Converter.Convert` | internal/app/convert.go:602-835 | Opening event on the first chunk, kept content, closing pair exactly on a finish with usage known |
| `ClaudeStream.Converter.Close` | internal/app/convert.go:578-593 | Closes at most once, with "stop" and zero usage as defaults |
| `ClaudeStream.Converter.Feed` | internal/adapter/provider/openai/helper.go:36-56 | One chunk fed: count, usage, finish reason and content kept so far |
| `ClaudeStream.Converter.Finish` | internal/adapter/provider/openai/helper.go:204-228 | The held-back last chunk and the close end the stream with exactly one pair, on the billed usage unless the chunk finishes with its own |
| `ClaudeStream.ConvertHead` | internal/adapter/provider/openai/helper.go:22-56 | Every chunk but the last; the pair goes out early exactly on the first chunk that can close |
| `ClaudeStream.ConvertStream` | internal/adapter/provider/openai/helper.go:349-378 | For every chunk sequence: one message_start first, one message_delta and one message_stop last, none between; the body reads to a client exactly as its specification, block starts, stops and indices included; the content kept; every event in its place if the chunks are orderly; an empty stream is not answered |
| `ClaudeStream.DeliveredIsFramed` | internal/app/convert.go:549-593 | The frame holds by position, for every delivered stream |
| `ClaudeStream.BalancedIffSteady` | internal/app/convert.go:602-835 | Among streams that call tools one by one and end quietly, block starts and stops balance if and only if something is said, reasoning comes before everything else, and each tool call is named once, where it starts |
| `ClaudeStream.ParallelCallsOverlap` | internal/app/convert.go:742-776 | Two tool calls started by one later chunk overlap, whatever came before |
| `ClaudeStream.CallsReachClient` | internal/app/convert.go:627-776 | For every delivered stream, the tool calls the client is told of are exactly those read upstream, in order, each under its own id and name, announced and filled in one block, which is the one the call names if it names one and block 0 for a first chunk |
| `ClaudeStream.UnindexedCall` | internal/app/convert.go:734-776 | A lone call without an index goes on in the current block after tool content, and opens the next one after anything else |
| `ClaudeStream.UnindexedCallsDrift` | internal/app/convert.go:742-776 | Calls that arrive together without indexes are numbered one after the other if and only if there are at most two |
| `ClaudeStream.ClosingFigures` | internal/app/convert.go:527-568 | What the client is told at the end: stop reason translated, whose usage is reported, and input plus both cache terms equal the prompt count when it includes cached tokens and they do not exceed it |
| `ClaudeStream.KeptSize` | internal/app/convert.go:602-835 | One chunk loses content exactly when it is not loss-free |
| `ClaudeStream.FaithfulIff` | internal/app/convert.go:602-835 | Text, thinking and tool arguments equal the upstream's if and only if every converted chunk is loss-free and nothing follows the closing pair |
| `CacheInference.RoundIsNearest` | internal/app/quota.go:652-656 | Rounding half away from zero is within one half, and no integer is nearer |
| `CacheInference.SettlementPerToken` | internal/app/quota.go:422-450 | Without an inferred count every token is billed once at its own price, five-minute, one-hour and other cache writes included; billed prompt tokens add up to the prompt count if and only if the split does not exceed the cache writes |
| `CacheInference.FlatPrice` | internal/app/quota.go:615-636 | A flat price is the settlement whatever was used |
| `CacheInference.ExactCountHitsTarget` | internal/app/quota.go:638-657 | The unrounded inferred count reproduces cost * QuotaPerUnit * group ratio |
| `CacheInference.InferredCountIsNearest` | internal/app/quota.go:615-657 | The inferred count misses the target by at most half a token's surcharge, exactly 0 if whole, and less than or equal to any other count |
| `CacheInference.SettlementIsBilled` | internal/app/quota.go:422-450 | When the inference is accepted the settlement bills the inferred count |
| `CacheInference.InferenceReproducesCost` | internal/app/quota.go:422-450 | The unrounded settlement is within half of (creation ratio - 1) * model ratio * group ratio of the cost's worth, equal if the count is exact, and no count would come closer |
| `CacheInference.NoCostInference` | internal/app/quota.go:428-439 | Without a readable cost the inference still runs: it infers no tokens if cache writes cost more than the prompt, and otherwise settles within half a token's surcharge of nothing |
| `CacheInference.MissingCostCanBeFree` | internal/app/quota.go:428-439 | For every prompt size, prices at which a missing cost makes the request free |
| `Erasure.RemovingLeadsOn` | internal/adapter/repo/privacy_erasure.go:304-369 | Deleting doomed rows in any portions leads to the same outcome, if no session goes before its messages |
| `Erasure.RewritingLeadsOn` | internal/adapter/repo/privacy_erasure.go:443-609 | Closing and scrubbing in any portions lead to the same outcome and undo nothing settled |
| `Erasure.Store.DeleteAll` | internal/adapter/repo/privacy_erasure.go:207-302 | A hard delete settles its table, or fails without changing the outcome |
| `Erasure.Store.DeleteBatch` | internal/adapter/repo/privacy_erasure.go:320-369 | A batch leaves strictly fewer rows, or none were left |
| `Erasure.Store.Drain` | internal/lifecycle/privacy_erasure.go:188-205 | The batch loop terminates on the rows left and settles the table unless a call fails |
| `Erasure.Store.CloseOpen` | internal/adapter/repo/privacy_erasure.go:400-455 | Open tasks and pictures are closed; the outcome is unchanged |
| `Erasure.Store.ScrubAll` | internal/adapter/repo/privacy_erasure.go:513-565 | A column scrub settles its table |
| `Erasure.Store.ScrubBatch` | internal/adapter/repo/privacy_erasure.go:576-663 | A scrub batch leaves strictly fewer rows to scrub, or none were left |
| `Erasure.Store.EraseChats` | internal/lifecycle/privacy_erasure.go:183-205 | Messages, then sessions, under any failures |
| `Erasure.Store.EraseJobs` | internal/lifecycle/privacy_erasure.go:206-232 | Pictures closed and deleted, tasks closed and scrubbed |
| `Erasure.Store.EraseContent` | internal/lifecycle/privacy_erasure.go:183-258 | The content step settles its seven tables before the cursor moves |
| `Erasure.Store.EraseAccount` | internal/lifecycle/privacy_erasure.go:299-319 | Completed only with every table as the cascade leaves it; the last update does not see a soft-deleted user row |
| `Erasure.Store.ExecuteErasure` | internal/lifecycle/privacy_erasure.go:124-331 | Interrupted anywhere: the outcome is unchanged, the cursor is honest and never moves back, an unknown cursor is an error that changes nothing; uninterrupted it completes; completed, no row of the user's is left in any of the twelve deleted tables, named one by one, nor a message of their chats, and what stays is bare |
| `Erasure.Store.Retry` | internal/lifecycle/privacy_erasure.go:77-107 | After any number of passes, however each ended, a completed request left exactly what one uninterrupted run leaves, and that is an erasure of the data the first pass found |
| `Erasure.OutcomeIsErasure` | internal/lifecycle/privacy_erasure.go:124-331 | The cascade's outcome, on the data itself: nothing of the user's in the twelve deleted tables or in their chats; grants revoked, tasks ended and empty, quota data and logs under the marker, the user's audit events without address and details, the user row deleted; every kept row there with its figures; other users' rows untouched |
| `Erasure.ErasureIsIdempotent` | internal/lifecycle/privacy_erasure.go:124-331 | Erasing again changes nothing |
| `Erasure.ErasuresCommute` | internal/lifecycle/privacy_erasure.go:77-107 | Two users' erasures give the same data in either order |
| `Erasure.OthersKeepTheirRows` | internal/adapter/repo/privacy_erasure.go:304-340 | Rows of others are untouched, except messages inside the user's chats |
| `Erasure.LogEndsAnonymousIff` | internal/adapter/repo/privacy_erasure.go:576-609 | A log row ends anonymous if and only if it was, or its user name was not the marker; its quota survives |
| `Erasure.MarkerNameKeepsContent` | internal/adapter/repo/privacy_erasure.go:582-587 | A log row the batch never scrubs |
| `Erasure.UserEndsAnonymousIff` | internal/adapter/repo/privacy_erasure.go:670-692 | The user's row ends anonymous if and only if it was not soft-deleted when the step ran, or was anonymous before; its quota survives |
| `Erasure.SoftDeletedUserSurvives` | internal/lifecycle/privacy_erasure.go:299-319 | A completed erasure that leaves a soft-deleted user's e-mail in place |
| `Erasure.SessionFirstStrandsMessage` | internal/adapter/repo/privacy_erasure.go:304-319 | Why messages go first: the other order strands one |
| `Sunday.DecodeRune` | internal/app/str.go:19-21 | One step of a Go range over bytes: width, ASCII runes, and the shape of runes below U+0100 |
| `Sunday.SundaySearch` | internal/app/str.go:16-51 | The loops terminate and compute the search over the rune-keyed, byte-probed table |
| `Sunday.MatchesAt` | internal/app/str.go:29-36 | The inner loop compares the window |
| `Sunday.SafeTableMissesNothing` | internal/app/str.go:38-48 | A table that never skips past a byte's own position jumps over no match |
| `Sunday.AsciiTableIsSafe` | internal/app/str.go:18-21 | The table of an ASCII pattern is such a table |
| `Sunday.NonAsciiTableIsUnsafe` | internal/app/str.go:18-21 | The table of any other pattern is not |
| `Sunday.UnsafePositionMisses` | internal/app/str.go:16-51 | A text on which an unsafe table misses a match |
| `Sunday.SearchIsSound` | internal/app/str.go:16-51 | A hit is always real, for every pattern |
| `Sunday.ExactIffAscii` | internal/app/str.go:16-51 | The search is exact on every text if and only if the pattern is ASCII |
| `Csv.ParseCsv` | scripts/uat/seed.ts:318-349 | The parser's loop computes the specification |
| `Csv.Advance` | scripts/uat/seed.ts:325-342 | One turn of the loop, look-ahead included |
| `Csv.KeepNonBlank` | scripts/uat/seed.ts:348-348 | Rows with some non-empty cell, in order |
| `Csv.ScanCell` | scripts/uat/seed.ts:311-314 | A printed cell reads back as its text, quotes, commas and line ends included |
| `Csv.ScanRow` | scripts/uat/seed.ts:315-317 | A printed row reads back cell for cell |
| `Csv.RoundTrip` | scripts/uat/seed.ts:311-349 | parseCsv of a byte-order mark and toCsv(rows) is exactly the rows with a non-empty cell, for every table |
| `Csv.RoundTripWithoutMark` | scripts/uat/seed.ts:311-349 | Without the mark it holds if and only if the printed text does not start with one |

## Left out

- HTTP clients, proxies, media decoding, webhooks, e-mail, metrics, logging, audit records and event publishing.
- Conversion of quota to wallet currency and its rounding, asynchronous execution of the direct debit, and the quota notification e-mail.
- The decision functions of the degraded pre-authorisation policy, the advisory drift policy and the tenant and project caps: only their answers appear.
- Write buffering of ledger updates (batch updater, Redis counters): a ledger write is one step.
- The cooldown mirror keys in Redis, and clock differences between replicas.
- The selection of a sweep's batch (the lowest 100 ids), so no claim of sweep fairness.
- The floor of one quota unit on a chargeable request, the web-search fee and the zero-token guard around the Claude settlement.
- The weighted draw inside a priority tier, tiers below the first, and the affinity store itself: a pin is the channel its lookup returned.
- Frames that do not parse, incomplete streams and the audio-model path of the stream handler; message identifiers, model names and role fields of stream events.
- BalancedIffSteady: streams with several tool calls per chunk, with indices other than 0, or with content after a finish reason are covered by the exact view of `ConvertStream` and by `ParallelCallsOverlap` only, not by the readable condition.
- Floating-point error of ratios, and the inference with a model ratio of 0, which divides by zero in floating point.
- The search-index purge, the in-process quota cache, table existence checks, concurrent pollers and the logs_scrubbed counter of the erasure, which undercounts after a crash; several pending requests in one pass.
- Redis key expiry is the Evict step; the atomicity of a mark's pipeline is assumed.
