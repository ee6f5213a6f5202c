# Money that moves through steps that can fail

A Dafny model of four parts of the Rumi protocol repository in which value moves through several
awaited steps, any of which can fail, and the books must stay right on every run:

1. **The liquidation bot** (`src/liquidation_bot`): claim, swap, transfer, confirm, treasury, with a
   return-and-cancel path, bounded retries, a rotating queue, a re-entrancy guard, a durable record
   log, running totals, and the upgrade path from a raw blob to a managed stable-memory layout.
2. **The ICRC ledger** (`src/flaky_ledger`): balances, allowances, deduplication and injected
   failures, among them "committed but the reply is lost".
3. **The 3pool's money paths** (`src/rumi_3pool`): fee withdrawal (zero, transfer, restore over three
   tokens), swaps, deposits, removals, refunds, donations and the recovery of failed payouts, under a
   canister-wide lock and with fee-inclusive sends, against three live copies of the ledger of part 2.
4. **The CFX price monitor** (`monitoring/cfx-price-monitor`): median with outlier rejection,
   fixed-point collateral ratios, refresh policy, write-and-verify cycle, rate-limited alert sink.

## How it is built

Each asynchronous protocol is a machine over its steps: a run is suspended at an `await`, its reply is
an arbitrary value, and between two steps every other message the canister accepts may happen. The
main results hold after every sequence of events. Code that changes fields step by step is also
given in its own form, as a class whose methods are proved against the same functions.

| file | content |
|---|---|
| `Ledger.dfy`, `LedgerRuns.dfy` | the ledger (`FlakyLedger` and its step functions); conservation, at-most-once |
| `BotTypes.dfy`, `BotMath.dfy`, `History.dfy` | records and configuration; sizing, slippage, reservation; the record log |
| `BotMachine.dfy` | `process_pending` and the sweep, from await to await |
| `BotInvariant.dfy` | what every step keeps |
| `BotScript.dfy` | the protocol told from what a run has been told, with no program counter; the machine follows it |
| `BotTheorems.dfy`, `BotQueue.dfy` | call order, stuck claims, totals, ring-fence, slippage floor; the retry queue |
| `BotProcess.dfy` | `process_pending` as one imperative method, proved to carry out a run of the machine |
| `Bytes.dfy`, `Upgrade.dfy` | little-endian framing; the upgrade hooks and the life of an installation |
| `Pool.dfy`, `PoolBooks.dfy` | the pool's operations from await to await; lock, well-formed calls, fee conservation |
| `PoolClaims.dfy` | claims, the fee a send is priced with, who may start what |
| `PoolSolvency.dfy` | real holdings cover what is tracked and owed |
| `PoolUsers.dfy` | what each user is owed, and the books, move by exactly what the transfers came to |
| `PoolCanister.dfy` | the withdrawal as imperative methods, proved to carry out a run of the machine |
| `Aggregate.dfy`, `Policy.dfy`, `MonitorTick.dfy`, `AlertSink.dfy` | the monitor |
| `Prelude.dfy` | machine-integer operations, sums over maps, division facts |

## Assumptions, where they are used

- *Faithful reply*: the backend's answer to claim, cancel and confirm says whether the call took
  effect. Used by `StuckIffOpen` and what follows from it; `AgreesIffFaithful` shows that it
  is exactly what is needed. Nothing else about the bot needs it.
- *Honest balance*: a balance reading is at most what the wallet holds when the reply is taken (nobody
  but the bot draws on it), and the configured ckUSDC fee is at least the ledger's. Used by the
  ring-fence.
- *Fair ledger*: a send is priced with at least the ledger's fee and its reply is not lost; a pull is
  not taken for an earlier one; nobody else draws on the pool's account; no 128-bit sum overflows in the
  ledger; a declared donation is really spare. Used by `SolventOnRuns`. For the lost reply, the
  duplicate pull and the donation the exact condition is proved (`LostReplyCoveredIff`,
  `DuplicatePullCoveredIff`, `DonationCoveredIff`).
- *Codec*: JSON encoding is a parameter. For each state that is saved, decode(encode(s)) = s and the
  encoding has at least one byte and a length that fits a u64. `CodecExists` shows that this can be met.
- *Register*: the on-chain price is written only by the monitor, and every read returns it or throws.
- Integers are unbounded where the code's sums are taken not to overflow: the bot's totals, the pool's
  balances and the block and id counters. Everywhere else width is written out: saturation
  (`saturating_*`), truncation (`as u64`, `nat_to_u128`), length prefixes, retry counters, restored
  fees, and the ledger's u128 balances, whose plain `+` wraps around because no build profile turns
  overflow checks on. Monitor prices are reals.
- A trap after an await ends the call and drops its guard, as the canister runtime's cleanup does.

## Where the code and its own words disagree

The model follows the code.

- `src/liquidation_bot/src/process.rs:397-401` says that a failed pre-swap reading falls back to the
  router's number; in fact the reservation is then zero, nothing is sent and the run ends as
  TransferFailed (`UnreadBalanceReservesNothing`, `NoReadNoTransfer`).
- `src/liquidation_bot/src/state.rs:120-124` says that retry counters do not survive an upgrade; the
  whole state is serialised, so they do (`UpgradeIsTransparent` keeps the full heap state).
- A failed *post*-swap reading trusts the router. The balance the ring-fence protects then survives a
  transfer that takes effect if and only if the wallet really gained the router's figure less the
  configured fee plus the ledger's (`FenceIffSwapDelivered`); `ShortDeliveryBreaksFence` is a run in which
  it does not.
- A legacy state of ten million bytes or more is saved by the old code but not found by the new one, which
  starts afresh (`LegacyUpgradeMigrates`).
- A legacy blob whose migration flag is already up is dropped and replaced by a fresh state, and a
  blob of length 0x52474D is taken for a managed layout and stops the upgrade (`FirstMigration`).
- The 5% swap buffer rounds to nothing below a need of 20 units, so a need that does not divide evenly
  is then not covered (`SwapCoversDebt`, an if-and-only-if).
- With `max_slippage_bps` above 10000 the subtraction for the minimum output goes below zero if and only
  if amount times the excess over 10000 reaches 10000; the minimum is then minus the excess modulo 2^64,
  often a huge number, otherwise it is zero (`OversizedTolerance`).
- The ledger adds amount and fee without an overflow check: with any positive fee, an empty account can
  send 2^128 less the fee (`OverflowMints`). Money is conserved if and only if debit and credit overflows
  cancel out (`Conservation`), and always while the supply and each transfer fit 128 bits
  (`ConservedInRange`).
- `receive_donation` compares the on-chain balance with the pool's balance alone, so unpaid admin fees and
  pending claims can be donated to the pool a second time (`FeesDonatedTwice`).
- A ledger's Duplicate is taken for success on pulls as on sends. For sends that is safe; a pull that was
  not made is then credited (`DuplicatePullCoveredIff`).
- The ledger has no deduplication window, approve costs no fee, the fee is not taken from the
  allowance (`ZeroTransferFromBurnsFee`), and the deduplication key leaves out who pays, so two
  different `transfer_from` calls can collapse (`DistinctPayersCollapse`).
- The alert key leaves out the level, so a vault that turns critical within the cooldown of a warning
  is not reported (`EscalationIsHeld`).

## Model

| member | source | states |
|---|---|---|
| `Ledger.FlakyLedger.Icrc1Transfer` | src/flaky_ledger/src/lib.rs:192-285 | The in-place transfer produces exactly the specified next state and reply: injected failures, dedup, funds check, commit, lost reply, in that order. |
| `Ledger.FlakyLedger.Icrc2TransferFrom` | src/flaky_ledger/src/lib.rs:305-394 | Same for spending an allowance, with the allowance check between dedup and funds. |
| `Ledger.FlakyLedger.Commit` | src/flaky_ledger/src/lib.rs:254-283 | The common tail: debit then credit (a self-transfer loses only the fee), number the block, record the key, use up a due reply loss. |
| `Ledger.FlakyLedger.Icrc2Approve` | src/flaky_ledger/src/lib.rs:289-303 | Replaces the pair's allowance, takes a block number, charges nothing. |
| `Ledger.FlakyLedger.MintTo` | src/flaky_ledger/src/lib.rs:398-406 | Adds to one balance and changes nothing else. |
| `LedgerRuns.CommitCases` | src/flaky_ledger/src/lib.rs:192-394 | A transfer call either lands its block, unseen key and sufficient funds, or leaves everything but the BadFee counter and answers with an error. |
| `LedgerRuns.TransferMoves` | src/flaky_ledger/src/lib.rs:246-283 | For payer, recipient and every third account, the exact balance change of a committed call, wrap-around included; a success reply implies a commit, and a commit answers with an error exactly when a reply loss was due. |
| `LedgerRuns.Conservation` | src/flaky_ledger/src/lib.rs:246-258 | On every run, balances + fees burned (each at the fee then in force) + 2^128 per credit overflow = initial balances + minted + 2^128 per debit overflow; so money is conserved if and only if the two kinds are equally many. Self-transfers, lost replies and fee changes included. |
| `LedgerRuns.ConservedInRange` | src/flaky_ledger/src/lib.rs:246-258 | If the initial balances plus everything minted fit 128 bits, and so does each committed transfer with its fee, nothing overflows and money is conserved. |
| `LedgerRuns.OverflowMints` | src/flaky_ledger/src/lib.rs:247-256 | In every state with a positive fee that lets the caller through, a transfer of 2^128 less the fee to any other account that holds less than the fee goes through, costs the payer nothing and credits all of it. |
| `LedgerRuns.ExactMoves` | src/flaky_ledger/src/lib.rs:254-256 | Without overflow a commit costs the payer amount and fee and gives the recipient the amount; a self-transfer costs the fee. |
| `LedgerRuns.AllowanceConservation` | src/flaky_ledger/src/lib.rs:348-364 | On every run and for every (owner, spender): moved since the last approve + remaining = approved. |
| `LedgerRuns.DedupSoundOnRuns` | src/flaky_ledger/src/lib.rs:257-271 | On every run, resets included, remembered blocks exist and no two keys share one. |
| `LedgerRuns.DedupAlwaysSound` | src/flaky_ledger/src/lib.rs:257-271 | So in every state reached from the empty ledger. |
| `LedgerRuns.AtMostOnce` | src/flaky_ledger/src/lib.rs:228-244 | Without a reset, once a call has committed, no later call for the same request commits through either method; one that reaches the check is told that very block and changes nothing, lost reply or not. |
| `LedgerRuns.KeysAgreeIff` | src/flaky_ledger/src/lib.rs:230-238 | Two calls, through either method, share a key if and only if caller, subaccount drawn on, recipient, amount and fee as read, memo and a given creation time all agree. |
| `LedgerRuns.CommitsIff` | src/flaky_ledger/src/lib.rs:198-257 | A call commits if and only if no failure is injected, its key is not remembered, its allowance suffices and the payer holds the sum; it then takes the next block number and uses up one due reply loss. |
| `LedgerRuns.RefusalIsFirst` | src/flaky_ledger/src/lib.rs:310-360 | Otherwise the first failing check is the answer, in the code's order, and only an injected BadFee leaves a trace. |
| `LedgerRuns.OnlyMintCredits` | src/flaky_ledger/src/lib.rs:398-445 | Of the other calls only a mint moves money, to one account; only an approval sets an allowance or takes a block; only the reset forgets. |
| `LedgerRuns.SwitchesSet` | src/flaky_ledger/src/lib.rs:408-466 | Each switch sets what it names and keeps the others. |
| `LedgerRuns.BalanceTellsTruth` | src/flaky_ledger/src/lib.rs:174-185 | A balance query tells the truth unless told to lie, and then says zero. |
| `LedgerRuns.DuplicateIffCommitted` | src/flaky_ledger/src/lib.rs:330-346 | From an empty ledger, a call that reaches the check is answered Duplicate if and only if some earlier call really committed for the same request, field by field. |
| `LedgerRuns.RememberedIffCommitted` | src/flaky_ledger/src/lib.rs:260-271 | The dedup map holds a key if and only if some call of the run committed under it. |
| `LedgerRuns.DistinctPayersCollapse` | src/flaky_ledger/src/lib.rs:330-346 | After a run of mints and approvals from the empty ledger, two calls drawing on different owners would each be accepted but share a key, and the second is called a duplicate though it never landed. |
| `LedgerRuns.ZeroTransferFromBurnsFee` | src/flaky_ledger/src/lib.rs:348-366 | Any caller can make an account pay a fee without any allowance, in every state that lets the call through. |
| `History.Log.GetRecords` | src/liquidation_bot/src/history.rs:111-124 | The scan returns the page of the specification, limit and offset saturation included. |
| `History.Log.GetStuckRecords` | src/liquidation_bot/src/history.rs:137-160 | The scan returns at most 100 records, a prefix of all stuck records newest first, and all of them when fewer than 100. |
| `History.Log.MigrateLegacyEvents` | src/liquidation_bot/src/history.rs:180-208 | The loop appends the first 500 events, each under the next free id. |
| `History.PagingIsPartition` | src/liquidation_bot/src/history.rs:111-124 | For every log, also while a run's id has no record yet, and every page size up to 1000, the pages from the last to the first give every stored record once, in strictly ascending id. |
| `History.PageExact` | src/liquidation_bot/src/history.rs:111-124 | For every offset and limit a page holds exactly the stored records in its window, in strictly ascending id. |
| `History.CollectDense` | src/liquidation_bot/src/history.rs:111-124 | In a log without gaps the scan lists record 0, 1, 2, ... each once. |
| `History.StuckBelowExact` | src/liquidation_bot/src/history.rs:137-160 | The full stuck list holds exactly the stored TransferFailed and ConfirmFailed records, strictly newest first. |
| `History.StuckListIsNewest` | src/liquidation_bot/src/history.rs:135-160 | A stuck record missing from the capped list is older than all hundred shown. |
| `History.AppendExact` | src/liquidation_bot/src/history.rs:180-208 | Migration keeps the log gap-free, keeps what was there, and puts event i at the i-th new id, every field of the record as the event has it. |
| `BotMath.SwapAmountIsBounded` | src/liquidation_bot/src/process.rs:563-570 | For all inputs the amount is at most the collateral and worth at most 105% of the debt, truncation and saturation included. |
| `BotMath.SwapAmountIsLargest` | src/liquidation_bot/src/process.rs:563-570 | For all inputs the amount is the largest within the collateral and within 105% of the need, the need cut to 64 bits and the product to 2^64 - 1; without a price it is all of the collateral. |
| `BotMath.SwapCoversDebt` | src/liquidation_bot/src/process.rs:563-570 | Without truncation and with enough collateral, the amount covers the debt if and only if the need is at least 20 units or divides evenly. |
| `BotMath.SlippageRoundsUp` | src/liquidation_bot/src/swap.rs:155-158 | Up to 10000 bps the minimum output is the quote less the tolerance, rounded up. |
| `BotMath.OversizedTolerance` | src/liquidation_bot/src/swap.rs:155-158 | Above 10000 bps: exactly when the subtraction goes below zero, what the floor is then modulo 2^64, that it is zero otherwise, and exactly when it exceeds the quote. |
| `BotMath.ComputeReservation` | src/liquidation_bot/src/process.rs:77-111 | Spends the smaller of the router's figure and the wallet's gain, and notes a discrepancy exactly on a short delivery. |
| `BotMath.UnreadBalanceReservesNothing` | src/liquidation_bot/src/process.rs:315-411 | The sentinel for a failed pre-swap reading reserves nothing, whatever the second reading is or is made up to be. |
| `BotMath.DecideSwapFailure` | src/liquidation_bot/src/process.rs:144-180 | A stuck line is logged exactly when a cleanup step failed; SwapFailed exactly when none did; TransferFailed exactly when the return failed. |
| `BotInvariant.OutgoingIsLegal` | src/liquidation_bot/src/process.rs:306-490 | Whatever a suspended run has been told, the call it is waiting on is one it was allowed to make. |
| `BotInvariant.PhaseStep` | src/liquidation_bot/src/process.rs:306-490 | Every reply leads to a suspension point whose local variables agree with the whole transcript. |
| `BotInvariant.PhaseEnds` | src/liquidation_bot/src/process.rs:323-512 | Every record a run files has the status its replies imply, in both directions. |
| `BotInvariant.PhaseCompletes` | src/liquidation_bot/src/process.rs:447-512 | A Completed record's figures are the transcript's own arithmetic. |
| `BotInvariant.AdvanceKeeps` | src/liquidation_bot/src/process.rs:243-513 | One step of one run, any reply, keeps log, totals and transcript in order. |
| `BotInvariant.NextKeeps` | src/liquidation_bot/src/lib.rs:18-42 | Every event keeps: at most one run or sweep in flight, the flag up exactly then, everything else on file. |
| `BotInvariant.AlwaysGood` | src/liquidation_bot/src/process.rs:216-513 | That invariant holds after every sequence of events from `init`. |
| `BotScript.RunsFollowScript` | src/liquidation_bot/src/process.rs:216-513 | In every reachable state every call a run made was the one planned from what it had been told, arguments included; a suspended run waits on the planned call; a run is on file if and only if nothing more is planned, and every figure, status and note of its record, of whatever status, is read off what it was told. |
| `BotScript.ScriptedOnRuns` | src/liquidation_bot/src/process.rs:216-513 | The invariant behind it, after every sequence of events from `init`. |
| `BotScript.SwapLegFollows` | src/liquidation_bot/src/process.rs:305-415 | From the first balance reading to the reservation, every reply leads to the planned call. |
| `BotScript.ReturnScript` | src/liquidation_bot/src/process.rs:323-393 | Giving back and cancelling: planned calls, at most three cancels, the record of each outcome. |
| `BotScript.PayScript` | src/liquidation_bot/src/process.rs:417-512 | Paying, confirming at most five times, and the bonus: planned calls, the record of each outcome. |
| `BotTheorems.CallsInOrder` | src/liquidation_bot/src/process.rs:216-513 | In every reachable state every run made its calls legally: cancel only after a successful return, confirm only after a successful transfer, treasury only after a confirm, transfer only after a read balance, never both cancel and confirm. |
| `BotTheorems.NeverBoth` | src/liquidation_bot/src/process.rs:323-483 | A legal transcript never asks for both cancel and confirm. |
| `BotTheorems.HistoryAndStats` | src/liquidation_bot/src/process.rs:448-512 | Between runs every id has exactly one record; debt, collateral and treasury totals are each the sum of their own figure over the Completed records, and the count is their number; in each of those swapped + treasury = claimed, transferred + fee = received, 1 to 5 confirms. |
| `BotTheorems.RecordsAreKept` | src/liquidation_bot/src/history.rs:80-100 | From any good state, a written record never changes, whatever happens. |
| `BotTheorems.StuckIffOpen` | src/liquidation_bot/src/process.rs:216-513 | With a faithful backend, between runs the claims open there are exactly the TransferFailed and ConfirmFailed records. |
| `BotTheorems.StuckListShowsOpenClaims` | src/liquidation_bot/src/history.rs:135-160 | The operator's list shows open claims only, and an open claim it misses is older than the hundred shown. |
| `BotTheorems.AgreesIffFaithful` | src/liquidation_bot/src/process.rs:247-483 | A step keeps the records' view of the open claims in agreement with the backend if and only if the reply to claim, cancel or confirm tells whether the call took effect. |
| `BotTheorems.LostConfirmReply` | src/liquidation_bot/src/process.rs:447-483 | A refused last confirm leaves a stuck record, whose claim is open if and only if the call did not take effect after all. |
| `BotTheorems.TransferStaysAbove` | src/liquidation_bot/src/swap.rs:234-275 | A transfer after two good readings never reaches below the first, whether or not it is answered. |
| `BotTheorems.RingFence` | src/liquidation_bot/src/process.rs:308-445 | After every step of a run whose readings succeeded, the wallet holds at least the pre-swap balance, under notifications, deposits, fee and configuration changes and attempted sweeps. |
| `BotTheorems.FencedOnRuns` | src/liquidation_bot/src/process.rs:308-445 | The fence holds at every suspension point of every honest run from `init`. |
| `BotTheorems.FenceIffSwapDelivered` | src/liquidation_bot/src/process.rs:402-425 | In every reachable state in which a run with a failed second reading learns of its transfer: the pre-swap balance is still there if and only if the wallet had gained the router's figure (cut at saturation) less the configured fee plus the ledger's, or, if the transfer took no effect, held it before. |
| `BotTheorems.ShortDeliveryBreaksFence` | src/liquidation_bot/src/process.rs:402-425 | A run from `init` with truthful readings and a sufficient fee in which the router overstates, the second reading is lost and the wallet falls from 50 to 10. |
| `BotTheorems.NoReadNoTransfer` | src/liquidation_bot/src/process.rs:315-318 | If the pre-swap reading failed, no transfer, confirm or treasury call is ever made by that run. |
| `BotTheorems.SlippageFloorOnRuns` | src/liquidation_bot/src/swap.rs:104-158 | If the pool honours the minimum and the wallet gained what the router said, a Completed record sent at least the quote less the tolerance (rounded up), less one fee. |
| `BotTheorems.NotifyIsGuarded` | src/liquidation_bot/src/lib.rs:167-187 | A notification replaces the queue if it comes from the backend, does nothing otherwise, and never touches anything else. |
| `BotTheorems.SweepEmptiesWallet` | src/liquidation_bot/src/lib.rs:370-437 | A sweep of a wallet read truthfully, at the ledger's own fee, leaves it empty and the guard free. |
| `BotQueue.AttemptDecreases` | src/liquidation_bot/src/process.rs:222-303 | Every processed vault, whatever the outcome, lowers the sum of (3 - count) over pending vaults. |
| `BotQueue.Drains` | src/liquidation_bot/src/process.rs:222-303 | Without notifications the queue is empty after three runs per vault, ids staying distinct and counts 1 or 2. |
| `BotQueue.EachTriedOnceBetweenAttempts` | src/liquidation_bot/src/process.rs:282-294 | Between a refused attempt on a vault and its next one, every other pending vault is tried exactly once, in order, whatever its outcome. |
| `BotQueue.QuietRunIsAttempt` | src/liquidation_bot/src/process.rs:216-303 | Every whole run of the machine without a notification acts on the queue as one such attempt, all other events allowed. |
| `BotQueue.MachineDrains` | src/liquidation_bot/src/process.rs:216-303 | The machine itself drains: after three undisturbed runs per pending vault nothing is pending. |
| `BotQueue.PendingStaysDistinct` | src/liquidation_bot/src/lib.rs:167-187 | If notifications name each vault once, pending ids are distinct in every reachable state, also when one arrives during a claim. |
| `BotQueue.CountsAreStreaks` | src/liquidation_bot/src/process.rs:28-35 | Between runs, in every reachable state, each stored count is 1 or 2 and is the streak of refused claims read off the durable records, every third refusal giving up. |
| `BotProcess.Bot.ProcessPending` | src/liquidation_bot/src/process.rs:216-513 | The imperative method, messages interleaved at each await, carries out a run of the machine and leaves an idle, fully filed bot idle and fully filed. |
| `BotProcess.Bot.Refuse` | src/liquidation_bot/src/process.rs:255-302 | A refused claim is filed and re-queued at the front or given up, as the machine does. |
| `BotProcess.Bot.Liquidate` | src/liquidation_bot/src/process.rs:305-393 | Everything after a granted claim ends where the machine ends. |
| `BotProcess.Bot.SwapAndPay` | src/liquidation_bot/src/process.rs:395-425 | From the quote on: swap, second reading, reservation, payout, as the machine does. |
| `BotProcess.Bot.CleanUp` | src/liquidation_bot/src/process.rs:323-393 | Return, then cancel, as the machine does. |
| `BotProcess.Bot.CancelClaim` | src/liquidation_bot/src/process.rs:340-369 | The cancel loop stops at success or three attempts and files what the machine files. |
| `BotProcess.Bot.PayOut` | src/liquidation_bot/src/process.rs:417-484 | Transfer once, then confirm, as the machine does. |
| `BotProcess.Bot.ConfirmClaim` | src/liquidation_bot/src/process.rs:447-483 | The confirm loop makes 1 to 5 attempts and reports the count the machine records. |
| `BotProcess.Bot.PayBonus` | src/liquidation_bot/src/process.rs:486-512 | Bonus sent or not, the record and the totals are the machine's. |
| `Bytes.LeRoundTrip` | src/liquidation_bot/src/state.rs:243 | Reading back a little-endian number of any width gives the number. |
| `Upgrade.CodecExists` | src/liquidation_bot/src/state.rs:237 | Some codec carries any given states, so the results about carried states are about something. |
| `Upgrade.SnapshotRoundTrip` | src/liquidation_bot/src/state.rs:233-249 | For every state the codec gives back and any earlier region contents, loading after saving gives the saved state if and only if its encoding has 1 to 10,000,000 bytes, and is refused if and only if it has more. |
| `Upgrade.HeaderReadsHuge` | src/liquidation_bot/src/lib.rs:84-103 | Any "MGR" header with version at least 1, read as a length, exceeds 10,000,000. |
| `Upgrade.MagicIsOneLength` | src/liquidation_bot/src/memory.rs:38-65 | A blob of acceptable length looks like a managed layout if and only if its length is 0x52474D. |
| `Upgrade.UpgradeIsTransparent` | src/liquidation_bot/src/lib.rs:69-137 | Once the layout exists, an upgrade keeps heap state and log, takes the config save even if the flag was lost, and succeeds if and only if the snapshot fits. |
| `Upgrade.LayoutIsForever` | src/liquidation_bot/src/state.rs:168-210 | Over any sequence of work and upgrades, each state along it carried by the codec, the layout is never lost, the raw save never happens and every upgrade keeps heap state and log. |
| `Upgrade.InstallIsSettled` | src/liquidation_bot/src/lib.rs:49-67 | A fresh install starts in that situation. |
| `Upgrade.CorruptConfigTraps` | src/liquidation_bot/src/state.rs:494-550 | The upgrade of a managed canister stops if and only if the region holds no snapshot (too short, too long a length, undecodable bytes); a region never written starts afresh with the flag up; any other gives the decoded state; the log is kept. |
| `Upgrade.FirstMigration` | src/liquidation_bot/src/lib.rs:82-137 | The first upgrade of every legacy blob, in full: traps if and only if its length is the magic one; otherwise carries state and events over, or loses them if the blob's flag was already up. |
| `Upgrade.LegacyEventsEnterOnce` | src/liquidation_bot/src/lib.rs:111-130 | Through the migration and any number of further upgrades the log holds the first min(500, n) legacy events, each once, in order, field by field, and the state is the blob's. |
| `Upgrade.LegacyUpgradeMigrates` | src/liquidation_bot/src/state.rs:184-210 | The upgrade of a canister with raw memory: below ten million bytes, state and events come over; at the magic length it stops with nothing changed; a longer snapshot is not found and the state is lost. |
| `Upgrade.UpgradesChangeNothing` | src/liquidation_bot/src/lib.rs:69-137 | Any number of upgrades in a row leaves heap state and log as they were. |
| `Upgrade.BotCanister.SaveConfigToStable` | src/liquidation_bot/src/state.rs:233-249 | Writes length and payload over the region, keeping what lies beyond; fails without a layout. |
| `Upgrade.BotCanister.LoadConfigFromStable` | src/liquidation_bot/src/state.rs:494-550 | Loads, starts fresh on no data, or fails and keeps the heap. |
| `Upgrade.BotCanister.Upgrade` | src/liquidation_bot/src/lib.rs:69-137 | Both hooks in place, rolled back as a whole on a trap, are the specified upgrade. |
| `Upgrade.BotCanister.FinishUpgrade` | src/liquidation_bot/src/lib.rs:82-137 | The post-upgrade hook: rescue, lay out, open the log, migrate or load. |
| `PoolBooks.NextKeepsLock` | src/rumi_3pool/src/pool_guard.rs:26-47 | Every step keeps: the flag is up exactly while a guarded call is in flight, never for two; recoveries of claims run beside it. |
| `PoolBooks.NextKeepsTasks` | src/rumi_3pool/src/transfers.rs:94-117 | In every state reached from a well-formed one, what a call has on the wire is its operation's current transfer: to the admin, user or claimant it is owed to, the whole amount less exactly the fee it was priced with, or a pull of the whole amount from the user. |
| `PoolBooks.LegIs` | src/rumi_3pool/src/lib.rs:478-508 | Which token, which amount and which party each operation's current transfer is about. |
| `PoolBooks.RestoreIsExact` | src/rumi_3pool/src/admin.rs:149-152 | The saturating restore loses nothing while all fees ever accrued fit a u128. |
| `PoolBooks.NextBalances` | src/rumi_3pool/src/admin.rs:133-160 | Every single step keeps accrued = on the books + in flight + reported withdrawn. |
| `PoolBooks.FeesAreConserved` | src/rumi_3pool/src/admin.rs:118-165 | Under any interleaving of withdrawals, swaps, deposits, removals, recoveries and accruals, with any outcomes, that equation holds for each token, with one guard at most. |
| `PoolBooks.FreshIsSound` | src/rumi_3pool/src/pool_guard.rs:20-22 | A new pool starts so. |
| `PoolClaims.WiredAtCachedFee` | src/rumi_3pool/src/transfers.rs:99-113 | Whatever event puts a send on the wire, it is priced with exactly the fee then cached for its token. |
| `PoolClaims.CacheIsAnswer` | src/rumi_3pool/src/transfers.rs:29-41 | A lookup leaves the ledger's answer in the cache, or 10,000 if there is none that fits 128 bits; nothing else changes the cache. |
| `PoolClaims.NextKeepsClaims` | src/rumi_3pool/src/lib.rs:352-401 | No claim is ever both on the list and being recovered, or being recovered twice. |
| `PoolClaims.RecordsLatest` | src/rumi_3pool/src/lib.rs:320-350 | A failed payout goes on the list under a new id, as it is; all others stay, but at 10,000 the oldest goes. |
| `PoolClaims.StartsAreAllowed` | src/rumi_3pool/src/lib.rs:356-386 | Only the admin withdraws, only claimant or admin recover, and swaps and removals start only for amounts the known fees leave something of. |
| `PoolSolvency.BookOwes` | src/rumi_3pool/src/lib.rs:489-527 | Whatever a transfer's outcome - booked swap, refund, pending claim, restored fee, re-inserted claim - booking it and going on leaves no more to account for than before, and exactly as much unless a full list loses its oldest claim or a restored fee saturates. |
| `PoolSolvency.RecordOwes` | src/rumi_3pool/src/lib.rs:320-350 | Recording a failed payout adds its amount to what is promised, or less if the list of 10,000 drops its oldest. |
| `PoolSolvency.NextBacks` | src/rumi_3pool/src/lib.rs:424-459 | What a swap in flight is about to take stays within the balance until it is booked. |
| `PoolSolvency.SendExact` | src/rumi_3pool/src/transfers.rs:85-137 | A landed send raises the account it is owed to by the whole amount less the fee it was priced with, lowers the pool's by that and the real fee, with equal fees by exactly the whole amount, and touches no other token; any other send moves nothing; a landed one is reported failed exactly if the reply is lost. |
| `PoolSolvency.LostReplyCoveredIff` | src/rumi_3pool/src/admin.rs:149-152 | After a landed send whose reply is lost, the pool is covered if and only if its spare holdings reach what was sent and the real fee. |
| `PoolSolvency.DuplicatePullCoveredIff` | src/rumi_3pool/src/transfers.rs:68-76 | After a pull answered Duplicate and taken for success, the pool is covered if and only if its spare holdings reach the amount. |
| `PoolSolvency.DonationCoveredIff` | src/rumi_3pool/src/lib.rs:1126-1147 | After an accepted donation, the pool is covered if and only if its spare holdings reach the amount. |
| `PoolSolvency.FeesDonatedTwice` | src/rumi_3pool/src/lib.rs:1136-1147 | With holdings just covering what is owed, every donation of up to the unpaid admin fees is accepted and leaves the pool owing more than it holds. |
| `PoolSolvency.NextCovers` | src/rumi_3pool/src/transfers.rs:29-137 | Every fair step of every operation keeps balances + unpaid fees + claims + what is debited or pulled and not yet settled at or below real holdings: success, Duplicate, refusal, dust, restore, refund, recovery. |
| `PoolSolvency.SolventOnRuns` | src/rumi_3pool/src/transfers.rs:85-137 | So on every fair run, swaps, deposits and payouts to users included. |
| `PoolSolvency.UnlockedMeansFunded` | src/rumi_3pool/src/transfers.rs:85-105 | Whenever the lock is free, balances, unpaid fees and claims together are in the pool's account. |
| `PoolSolvency.FreshIsSolvent` | src/rumi_3pool/src/transfers.rs:85-93 | A new pool starts solvent. |
| `PoolSolvency.OthersOnlyAdd` | src/rumi_3pool/src/transfers.rs:85-93 | A ledger call that does not draw on an account, and does not overflow, never lowers it. |
| `PoolUsers.BookOwed` | src/rumi_3pool/src/lib.rs:489-514 | Whatever the outcome of a transfer, each user is owed the same once it is booked: a failed swap payout owes the input back, a failed pull what was pulled before it, a failed payout or refund becomes a claim, a failed recovery leaves the claim; only a list of 10,000 gives up its oldest. |
| `PoolUsers.NextEntitles` | src/rumi_3pool/src/lib.rs:624-655 | On every step, what each user is owed of each token changes by exactly what was pulled, debited, sent, traded or deposited, less dust and claims given up. |
| `PoolUsers.UsersAreConserved` | src/rumi_3pool/src/lib.rs:787-819 | So over every run of swaps, deposits, removals, refunds and recoveries, whatever interleaves and whatever fails. |
| `PoolUsers.NoDustNoLoss` | src/rumi_3pool/src/transfers.rs:99-105 | Nothing is lost on a step on which every amount exceeds the known fee of its token and the list of claims is not full. |
| `PoolUsers.NextBooksMove` | src/rumi_3pool/src/lib.rs:516-527 | On every such step, what the pool tracks, promises and has in hand changes by exactly the amounts of answered transfers and accepted donations, and fees accrue by exactly the share. |
| `PoolUsers.FreshIsOrderly` | src/rumi_3pool/src/lib.rs:311-316 | A new pool owes nobody anything. |
| `PoolCanister.ThreePool.WithdrawAdminFees` | src/rumi_3pool/src/admin.rs:118-165 | The method carries out a run of the machine, others' messages let through at each await; it is refused with nothing changed exactly when the lock is held or the caller is not the admin; otherwise the report is what the machine adds to its total, each token in full or not at all, and fees left + reported = fees found + accrued meanwhile. |
| `PoolCanister.ThreePool.SendFees` | src/rumi_3pool/src/admin.rs:142-160 | The loop over the three tokens ends where the machine ends. |
| `PoolCanister.ThreePool.SendFee` | src/rumi_3pool/src/admin.rs:144-158 | One token: reported if sent, put back if not, as the machine does. |
| `PoolCanister.ThreePool.TransferToUser` | src/rumi_3pool/src/transfers.rs:94-137 | Fee lookup, dust, send and reply in place: what is owed less the cached or looked-up fee goes to the one it is owed to, dust is not sent and counts as sent, and the machine goes on with the same outcome. |
| `PoolCanister.ThreePool.LedgerFee` | src/rumi_3pool/src/transfers.rs:29-41 | Answers from the cache, or asks, replaces an unusable answer by the standard fee, and remembers it. |
| `PoolCanister.ForeignKeeps` | src/rumi_3pool/src/pool_guard.rs:26-47 | While a guarded call waits, no message of anyone else moves it or reports a withdrawal. |
| `Aggregate.SortIsPermutation` | monitoring/cfx-price-monitor/src/aggregate.ts:19-20 | The sorted copy is sorted and a permutation. |
| `Aggregate.MedianIsMiddle` | monitoring/cfx-price-monitor/src/aggregate.ts:18-24 | The median is the middle of any sorted arrangement of the values, for an even count the mean of the two middles. |
| `Aggregate.MedianIgnoresOrder` | monitoring/cfx-price-monitor/src/aggregate.ts:19-24 | Two lists with the same values in any order have the same median. |
| `Aggregate.MajorityHoldsMedian` | monitoring/cfx-price-monitor/src/aggregate.ts:19-24 | A strict majority in a band pulls the median into it. |
| `Aggregate.BandIsKept` | monitoring/cfx-price-monitor/src/aggregate.ts:52-63 | Near a provisional median inside a band no wider than the tolerance, no quote of the band is an outlier. |
| `Aggregate.MajorityIsSafe` | monitoring/cfx-price-monitor/src/aggregate.ts:34-88 | If more than half of the valid quotes lie in such a band, the provisional median does, none of them is rejected, and any accepted price does, whatever the other quotes say. |
| `Aggregate.AcceptedIff` | monitoring/cfx-price-monitor/src/aggregate.ts:43-87 | Quotes are accepted if and only if enough are valid, enough of those are in the band, and no two of those differ by more than the permitted share of their median; then the price is their median and they are the sources used; otherwise the first that fails is the reason. |
| `Aggregate.NothingIsLost` | monitoring/cfx-price-monitor/src/aggregate.ts:35-87 | Every quote is used or listed as rejected, the invalid ones first. |
| `Aggregate.FiltersKeepOrder` | monitoring/cfx-price-monitor/src/aggregate.ts:37-41 | Validity is judged quote by quote, finite and positive, in order. |
| `Aggregate.BandKeepsOrder` | monitoring/cfx-price-monitor/src/aggregate.ts:52-63 | So is the band: a quote is kept if and only if it deviates from the provisional median by no more than the tolerance. |
| `Aggregate.RunAggregate` | monitoring/cfx-price-monitor/src/aggregate.ts:34-88 | The two filtering loops with their shared reject list compute the specified outcome, the empty-quote and non-number cases included. |
| `Policy.RatioIsSafe` | monitoring/cfx-price-monitor/src/cr.ts:21-32 | A computed ratio at or above a threshold is truly there, despite two truncations and a cap. |
| `Policy.RatioIsTight` | monitoring/cfx-price-monitor/src/cr.ts:21-32 | A computed ratio below a threshold is truly below it up to one unit of the truncated value. |
| `Policy.RatioIsExact` | monitoring/cfx-price-monitor/src/cr.ts:21-32 | The ratio is the exact one of the truncated dollar value, rounded down, never beyond 2^64 - 1. |
| `Policy.DebtFreeIsQuiet` | monitoring/cfx-price-monitor/src/policy.ts:83 | A vault without debt has the largest ratio and raises no alarm. |
| `Policy.AlertsAreSound` | monitoring/cfx-price-monitor/src/policy.ts:80-106 | No alarm only if the true ratio is at least the band; every vault truly below the minimum is critical; a warning means truly at the minimum, a critical alarm below it up to the rounding; an alarm is never further off than the rounding and names its vault. |
| `Policy.CollectCrAlerts` | monitoring/cfx-price-monitor/src/policy.ts:80-106 | The loop collects the specified list. |
| `Policy.CrAlertsExact` | monitoring/cfx-price-monitor/src/policy.ts:80-106 | The list has as many alarms as vaults raise, and each vault's alarm stands after exactly those of the vaults before it. |
| `Policy.NoRefreshIffUpToDate` | monitoring/cfx-price-monitor/src/policy.ts:43-78 | The price is left alone if and only if drift and age are within bounds, stated without rounding; and exactly when each reason is given. |
| `MonitorTick.RunTick` | monitoring/cfx-price-monitor/src/runner.ts:96-219 | On a decided cycle the market price is written if and only if the policy asks, and nothing is written otherwise; refreshed and ok are exactly what the write came to; the cycle's own alert is the one for that outcome, between the coverage alert and every vault alarm, once, in order; refused and underflowing prices are alerted, failed reads throw; success means the register holds the market price or an unchanged up-to-date one. |
| `MonitorTick.Refresh` | monitoring/cfx-price-monitor/src/runner.ts:156-207 | One write; rejected, unverified, mismatched or verified, with the result and the alert of each; a success that was read back, or truly acknowledged, left the market price in the register. |
| `MonitorTick.UsdToE8Rounds` | monitoring/cfx-price-monitor/src/runner.ts:44-47 | Rounded to the nearest 1e-8, a half going up. |
| `MonitorTick.WrittenPriceInBand` | monitoring/cfx-price-monitor/src/runner.ts:45-47 | A majority of quotes in a narrow band confines any price the monitor may write to that band, rounded. |
| `AlertSink.DedupingSink.Emit` | monitoring/cfx-price-monitor/src/alerts.ts:51-63 | The sink's map and what it passed on are those of the specification after every call. |
| `AlertSink.LastEmitIsLatest` | monitoring/cfx-price-monitor/src/alerts.ts:52-60 | The stored time of a key is the latest at which it passed, even with a clock that runs backwards. |
| `AlertSink.PassesIffCooledDown` | monitoring/cfx-price-monitor/src/alerts.ts:46-63 | On every run an alert passes if and only if all earlier ones of its key that passed lie at least a cooldown back. |
| `AlertSink.StreamsAreVaults` | monitoring/cfx-price-monitor/src/alerts.ts:40-44 | Two vaults' alarms share a stream if and only if the vaults are the same; none shares one with an alert about the cycle; the level plays no part. |
| `AlertSink.EscalationIsHeld` | monitoring/cfx-price-monitor/src/alerts.ts:40-44 | A vault's critical alarm passes after its own warning if and only if the cooldown is over. |

## Left out

- Retrying and relabelling of stuck records (`admin_retry_stuck_claim`, the `record_id` of a sweep, `update_record_status`): they edit a status without touching the totals, so the log and totals results are about `process_pending`.
- Other admin endpoints of the bot (fee refresh, approvals, pool ordering): a configuration change is one event that may set anything at any time; who may ask for it is not modelled.
- The admin event list of the bot, log lines and message texts: only which case produced a note is kept.
- The effective price and slippage figures of a record: reporting values no later step reads.
- Backend internals (claim gate, automatic cancellation, vault accounting): the backend is an environment that answers.
- ICPSwap wrappers: a swap is a quote reply, a swap reply and an arbitrary delivery.
- 3pool swap and liquidity mathematics, LP supply, `ramp_a`, pause: an operation starts with whatever figures the mathematics gives within the balances, once the fee lookups of its own checks have been answered; slippage limits only decide whether it starts.
- `authorized_redeem_and_burn` of the 3pool: a burn to the minting account, which the modelled ledger does not have; it is a guarded call that holds the lock.
- `PoolUsers.NextBooksMove`: is about steps without dust, a full list of claims or a saturating restore; with those, `PoolSolvency.BookOwes` bounds the books from above and `PoolUsers.NextEntitles` still accounts for every user exactly.
- `MonitorTick.RunTick`: gathering of quotes, timeouts and the downtime watchdog are not modelled; the cycle starts from the quotes it was given.
- `BotProcess.Bot.ProcessPending`: the sweep is modelled as steps only, not as a method of its own.
- Bucket layout of the memory manager: the managed layout is a header and three separate regions.
- Transport and formatting of alerts, JSON and Candid encodings, IEEE rounding other than in the conversion to fixed point.
- `src/monad_rpc_mock`, frontends, generated declarations: no logic to prove, or only easy facts.
