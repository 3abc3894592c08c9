# Verified model of the Dock token migration

The Dock migration moves token balances from an ERC-20 ledger to the Dock mainnet. Holders transfer their ERC-20
tokens to a vault address and submit a request naming that transaction; a scheduler checks the transaction, waits
for confirmations and pays the holder on the Dock chain; later a script pays a swap bonus and, to holders who
chose to vest, the held-back half plus a vesting bonus. Four processes share one table, `public.requests`, and no
UPDATE on it tests the status it overwrites. This project models that system in Dafny and proves what it nevertheless
keeps: rows move only forward, payments are made as often and as high as they are due, and the two ledgers balance up
to two terms that it names exactly, the amounts accepted without a Transfer event and the payments repeated after lost
writes.

`dafny verify dfyconfig.toml` checks everything.

## How the model is built

| files | what they hold |
|---|---|
| `Wrappers`, `Sums` | Option and Result; sums over sequences and maps |
| `Requests` | statuses, rows, and the UPDATE statements as functions on the table |
| `Amounts` | conversion to 6 decimals, the vesting split, what each row is due |
| `Receipts` | acceptance of a receipt as a transfer to the vault |
| `Erc20`, `DockToken` | the token as a function of state and call, what callers can and cannot do to it, and the contract object |
| `Greedy` | sort ascending, take the longest affordable prefix: the in-place code and its optimality |
| `BonusMath`, `BonusShares`, `BigNumbers`, `BonusCalculation` | pro-rata division of the pools, its rounding, and the in-place totals |
| `BonusDisbursal` | the disbursal on shared mutable big numbers |
| `Pipeline` | the whole system as a state machine; each step is at most one database statement, one transaction's COMMIT or one chain call |
| `PipelineInvariant`, `PipelineSteps`, `PipelineFrame` | the global invariant, that every step of every process keeps it, and what each process leaves alone |
| `Verdicts` | which verdict each unconfirmed row gets, read off its receipt |
| `PipelineSafety`, `PipelineLedger`, `PipelineProgress`, `BonusPayout`, `BonusPools` | what follows for whole runs |
| `PipelineOwners` | whose request each row is, and to which account its payments went |
| `VaultLedger` | the deposits counted from logs are those of the token's own ledger |
| `PipelineRuns` | what one run of the scheduler can pay, from its SELECT on, whatever fails in it |
| `PipelineWalk` | runs that reach the states spoken of, and those in which an expected property fails |
| `RequestTable` | the SELECTs, and the statements of `src/db-utils.js` as methods on one mutable table |
| `Deployment` | the running system, with its table and contract objects; every change of it is a step of the machine |
| `Migrator`, `BonusScript` | `src/migrations.js`, `src/scheduler.js`, `src/schedule_invalid.js`, `src/bonus.js` and the database half of `src/bonus-utils.js` as imperative code on that object |

The last two files are where the code and the machine meet. A script can change the system only through
`Deployment.Do`, which demands an enabled step; at each await, any number of steps of everybody else may happen.
So a script that verifies is a run of the machine, whatever fails and whatever interleaves, and every theorem
about runs holds of it. A step that lets a statement take effect runs it on the `RequestTable` object, a mined
transaction is submitted to the `DockToken` object, and `Valid` ties both to the machine's state. What the outside
answers is an argument: the limits read from the Dock chain, the block under which a node reports a transaction, and
whether the call is `smooth`, that is, whether nodes show the receipts of mined transactions, mails go out, the Dock
chain accepts and statements take effect. The contracts say what a script has achieved whenever it ends normally, and
that a smooth call does.

A statement that is awaited may fail: then it was not applied, or it was applied and only the report got lost.
`Promise.all` rejects on the first failure while the other statements stay with the client, which runs them in the
order they were issued; the next run's SELECT waits behind them. A crash drops them. The model counts, for each
row, the writes after a payment that never took effect, and the payment theorems are stated in terms of that
count.

## Hypotheses

- A transaction's outcome, target and logs are the same in every receipt a node ever gives for its hash. Receipts
  may appear, disappear and change block; the block height does not decrease.
- The token's contract does not call itself through a relaying contract at its own address, and a revert undoes the
  whole transaction.
- A chain call pays its whole batch and returns, or pays nothing and throws.
- One scheduler, one reset, one calculation and one disbursal process at a time. Within that, they interleave freely,
  except that the contracts of the two bonus actions exclude another bonus action running beside them.
- Addresses and hashes are canonical, and case does not matter.

## Where code and comments disagree

- `src/eth-txn-utils.js:98-101` says a log is parsed as the `Transfer` event of the contract. The code never looks at
  the first topic, so an Approval that names the vault is accepted as a deposit of the amount it names.
  `CrossLedgerConservation` therefore carries the term `Unbacked`, which is zero exactly when every row paid for was
  accepted for a Transfer, and `CoveredExactly` says the same of each row. `PrincipalWithoutDeposit` is a run, for any
  amount that fits its column, that pays principal in full while the vault received nothing. What bounds the amount of
  such a row is the migrator's balance alone: a request that exceeds it is never selected (`AmountsFitColumn`), while
  for a Transfer the token supply bounds it as well (`MigratedAmountFits`).
- `src/bonus-utils.js:57` says a division by zero cannot happen. Deposits below 10^12 units count as zero tokens, so
  it can: `TotalCanBeZero` is a run that leads to it, and `DivisibleExactly` is the condition under which it does not.
- `src/bonus-utils.js:102-103` says requests with the highest balance come first, in descending order; the code sorts
  ascending, and that is what makes the selection as large as possible (`SelectOptimal`).
- `src/bonus.js:31` says batches of 100, the code passes 10.
- `README.md:85-88` of the repository explains the compound key with transactions that carry several transfers; the
  parser accepts single-log transactions only, so a transaction backs one row at most (`UniqueBacking`).
- `src/scheduler.js:42` calls a function that the file neither defines nor imports. The loop before it never
  returns, so the call is never reached.
- `src/migrations.js:276-277` reads a property of `undefined` when the fetch for a parsed row was rejected. The run
  throws there, with the statements issued so far still running; `JudgeParsedOne` models it so.

## Model

| member | source | states |
|---|---|---|
| PipelineSteps.RunInv | src/migrations.js:200-302 | The global invariant (row data, queues, budgets, in-memory rows, accounts) survives every run of all processes, chains and API together, including failed writes, lost receipts and crashes |
| PipelineSafety.NonInterference | src/db-utils.js:122-155 | In every step, each unguarded UPDATE is a legal status move of a row in a status its own process owns; it never changes recipient, vesting choice, a recorded deposit, block or payment |
| PipelineSafety.NoWayBack | src/migrations.js:308-330 | Over every run a parsed row never returns to an earlier status, so a paid row never becomes payable again; blacklisted rows never change at all |
| PipelineSafety.StaleSnapshotStillInvalid | src/schedule_invalid.js:6-23 | In every reachable state, each row of the reset's snapshot taken outside its transaction is still INVALID |
| PipelineSafety.RowData | src/db-utils.js:97-155 | What every status promises: deposit equal to the receipt's value, block buried under the confirmations, migration_tokens equal to the amount first paid, bonuses present; rows without a vesting choice never pass status 3 |
| PipelineSafety.UniqueBacking | src/eth-txn-utils.js:40-52 | Two rows with status TXN_PARSED or later never share a transaction hash, although the key also contains the address |
| PipelineSafety.MemoryMatchesTable | src/migrations.js:253-287 | When the second batch is about to be paid, every row in memory equals its table row in status, deposit and vesting choice, was judged by the receipt of its own hash, and would be paid the same by the next run |
| PipelineSafety.PaymentMultiplicity | src/migrations.js:173-181 | Over all runs, failing ones included: a row is paid at most once plus once per post-payment write that was lost, always exactly what it is due; once recorded as paid, exactly that often; the same for bonuses |
| PipelineOwners.RowOfItsRequest | src/db-utils.js:64-79 | In every reachable state each row was inserted by exactly one request and still names the account and the vesting choice of that request |
| PipelineOwners.PaidToRequester | src/migrations.js:152-153 | Over every run, each payment ever made for a row, initial or bonus, repeated or not, went to the account its request named when it was inserted |
| PipelineRuns.BatchesApart | src/migrations.js:217-301 | Within one run, from its SELECT on, no row found confirmed later is among those that were confirmed at the SELECT, whatever became of the first batch and its writes: the two batches never share a row |
| PipelineRuns.OncePerRun | src/migrations.js:217-301 | However a run goes on after its SELECT, whatever throws in it and whichever of its writes are lost, it pays each row at most once, and never more than the balance it read |
| PipelineRuns.BatchWithin | src/migrations.js:127-139 | Nobody in a selected batch gets more than the balance, so a request that alone exceeds it is never selected |
| PipelineRuns.AmountsFitColumn | README.md:103-103 | Over every run of the system, whatever a row was accepted for, each amount paid and the amount recorded are at most the largest balance read, so they fit the 22-character column whenever that is below 10^22 |
| PipelineSafety.WholeLifeEntitlement | src/bonus-utils.js:110-122 | Initial payment and bonus payment of a finished row add up to its converted deposit, its swap bonus and, if vesting, its vesting bonus: floor-half and ceil-half recombine |
| PipelineLedger.CrossLedgerConservation | src/migrations.js:27-66 | Over every run, with no hypothesis: 10^12 times all principal paid is at most everything ever transferred to the vault, plus the amounts booked rows name without a Transfer behind them, plus what lost writes made the scheduler repeat; the second term is zero exactly when every booked row that names an amount was accepted for a Transfer, the third when no write was lost |
| PipelineLedger.CoveredExactly | src/eth-txn-utils.js:105-112 | Once principal was paid for a row, and with no write of its own lost, its own transaction covers that principal if and only if its log is a Transfer |
| PipelineWalk.PrincipalWithoutDeposit | src/eth-txn-utils.js:105-112 | From any start and for any amount that fits its column there is a run, without a lost write and reading a balance of no more than that amount, in which an approval of the vault is paid out in full while the vault received nothing |
| PipelineWalk.AcceptedIsPaid | src/migrations.js:200-302 | Every acceptable transaction whose converted amount fits its column can be mined, requested, judged, paid and recorded: the whole way is a run of the machine |
| VaultLedger.RecordOfItsTransaction | src/eth-txn-utils.js:125-134 | Over every run, each receipt a node can show is that of the one transaction mined under its hash, as the token executed it at that point |
| VaultLedger.DepositsExplainBalance | erc20.sol:117-167 | Over every run the vault's balance in the token is its opening balance plus the deposits counted from the logs, less the withdrawals counted from the logs |
| PipelineLedger.SettledSlack | src/migrations.js:57-66 | For any set of n fully paid rows without a lost write of their own, the principal falls short of the deposits by less than n times 10^12, whatever happened to other rows |
| PipelineLedger.MigratedAmountFits | erc20.sol:245-245 | A row accepted for a Transfer names at most the token supply, so its initial migration is at most 10^15 |
| PipelineLedger.RunStaysWithinLimits | src/migrations.js:209-230 | However a scheduler run goes on and whatever throws in it, its two batches together pay at most the balance, to at most the allowance, read at its start |
| PipelineProgress.AtMostThreeWritesPerRow | src/migrations.js:253-287 | Between inserts and resets, at most three writes of the scheduler per row take effect, whatever else interleaves |
| PipelineProgress.WritesUseRank | src/migrations.js:225-225 | Each of those writes strictly lowers the rank sum of the table |
| Verdicts.JudgementRight | src/migrations.js:237-282 | Both loops over the one concatenated list: each new row gets exactly one statement, INVALID if and only if the receipt at its own index shows no deposit of its address, confirmed if and only if that deposit is buried, parsed otherwise, with the receipt's amount and block; parsed rows are confirmed at their offset; the run throws exactly when a parsed row's transaction is missing |
| Verdicts.ConfirmedExactly | src/migrations.js:275-281 | A parsed row is confirmed if and only if its own receipt is buried, with the block of that receipt; nothing else is written for parsed rows |
| PipelineSteps.JudgeOk | src/migrations.js:237-282 | The statements issued concern distinct rows, each in the status its statement expects, and the in-memory rows found confirmed are what those statements will make of the table |
| PipelineSteps.PayFirstInv | src/migrations.js:217-230 | Paying the already confirmed batch keeps the invariant: a batch names distinct confirmed rows and takes its cost off the limits before any write |
| PipelineSteps.PaySecondInv | src/migrations.js:291-301 | Paying the newly confirmed batch keeps the invariant: none of its rows has an initial payment still waiting to be recorded |
| PipelineSteps.OthersUndisturbed | src/db-utils.js:86-120 | Whatever one process writes to its own rows leaves every other process's pending statements, snapshot and memory valid |
| PipelineInvariant.DrainReady | src/migrations.js:318-329 | A transaction of ready statements applied at once keeps all rows well-formed and touches only rows of its own process |
| Migrator.GroupByStatus | src/migrations.js:203-206 | The grouping is the three filters of the rows by status, in table order |
| Migrator.SelectForMigration | src/migrations.js:108-139 | The loop's choice and its `accum` are the optimal selection on the amounts due and its exact cost |
| Migrator.JudgeSigValid | src/migrations.js:253-269 | The loop issues one verdict per new row, from the fetch of the same index, and collects the confirmed rows with their deposit |
| Migrator.JudgeTxnParsed | src/migrations.js:274-282 | The loop confirms parsed rows from the fetch at its offset and throws exactly when it meets a missing transaction, keeping what it had issued |
| Migrator.NeverThrows | src/migrations.js:275-277 | Every parsed row is backed by a mined transaction that is accepted for good, so the code looks into a missing transaction only when a node does not show one it had shown before |
| Migrator.MigrateConfirmedRequests | src/migrations.js:106-164 | It pays exactly the selected batch and returns its cost, or throws and pays nobody; a smooth call throws only when nobody fits the limits |
| Migrator.Migrate | src/migrations.js:151-153 | The recipients of the chain call are the accounts of the selected rows with the rows' amounts, all paid at once |
| Migrator.PayAlreadyConfirmed | src/migrations.js:217-230 | The limits left are the original ones less what was really paid, also when a write fails after the payment; unless something outside failed, the optimal batch was paid and each of its rows is recorded with the amount it got |
| Migrator.JudgeUnconfirmed | src/migrations.js:232-287 | Pays nobody; it always succeeds in a smooth call, and then the verdicts are the judgement of the selected rows by the receipts the node showed, at a height reached during the call; each of the statements was executed during the call, and what it wrote still shows unless the reset undid an INVALID |
| Migrator.ProcessPendingRequests | src/migrations.js:200-302 | The requests are exactly the rows with status SIG_VALID, TXN_PARSED or TXN_CONFIRMED at a point of the call; any outcome is a run of the machine within the limits read; a smooth run always goes through, and a run that goes through paid the optimal batch of the confirmed rows, judged each unconfirmed row by its own receipt, paid the optimal batch of the newly confirmed from what was left, and all its statements took effect; if there was room for all rows confirmed in the table at that point, each of them ends migrated with the amount it was due |
| Migrator.SelectIsPending | src/db-utils.js:86-90 | The status condition of the SELECT picks exactly the three statuses between INVALID and INITIAL_TRANSFER_DONE |
| Migrator.TablePaid | src/migrations.js:215-230 | A run that goes through and has room for every confirmed row of the table it selected from pays and records all of them |
| Migrator.EverybodyPaid | src/migrations.js:215-230 | When the rows confirmed before a run fit its limits, each is recorded as paid with the amount due; when those it confirms itself fit as well, so is each of them |
| Migrator.SchedulePendingChecks | src/scheduler.js:19-31 | In each round exactly the pending rows of the table at its SELECT are processed; every smooth round with room for the rows confirmed in the table then migrates each of them for good, with the amount due; all rounds together pay at most the sum of the balances read, and no row more often than once plus its lost writes |
| Migrator.ResetAllInvalidMigrations | src/migrations.js:308-330 | Every row that was INVALID at the call ends SIG_VALID and otherwise unchanged, as in every smooth call, or the transaction changes nothing; no other row moves back |
| Migrator.ScheduleInvalidChecks | src/schedule_invalid.js:6-23 | Every smooth pass puts each row that was INVALID when it began back to SIG_VALID, and over any number of passes, beside all other processes, no parsed row moves back |
| Deployment.OthersRunFreely | src/scheduler.js:19-31 | While the scheduler, the reset or the bonus script waits, every step of all the others may happen, and so may the statements the scheduler has issued |
| Deployment.Deployment.AwaitWrites | src/migrations.js:180-180 | Awaiting all writes: on success each of them was executed since, and what it wrote still shows unless the reset undid an INVALID; otherwise some write failed |
| Deployment.Deployment.Since | src/migrations.js:200-302 | Between any two points of an execution rows only moved on, mined records stayed and the log of executed statements only grew |
| Greedy.SelectOptimal | src/migrations.js:115-139 | No sub-multiset of the requests within the cap and the balance has more members than the selection, and none of the same size costs less |
| Greedy.SelectEmpty | src/migrations.js:141-144 | Nothing is selected exactly when the cap is zero or every single request exceeds the balance |
| Greedy.SelectAll | src/migrations.js:146-149 | Everybody is selected exactly when the cap has room for all and the balance covers the whole cost |
| Greedy.CheapestPrefix | src/bonus-utils.js:124-132 | Exchange argument: the first n of an ascending list cost no more than any n of its members |
| Greedy.SortInPlace | src/migrations.js:116-123 | The in-place sort leaves the stable ascending order of what the array held |
| Greedy.SelectPrefix | src/migrations.js:125-139 | The while loop finds the longest prefix under both limits, and `accum` is its sum |
| Greedy.SelectInPlace | src/bonus-utils.js:125-154 | Sorting and scanning a list computes the selection and its exact cost |
| Receipts.AcceptanceMeansBacking | src/eth-txn-utils.js:16-68 | A row is accepted exactly when its receipt is a successful call of the token with a single decodable log from the row's address to the vault; all rejections included |
| Receipts.ConfirmationExact | src/eth-txn-utils.js:88-96 | A transaction is confirmed exactly when its block is from 1 to 2^53 - 1 and the required confirmations behind the reference block |
| Receipts.BackingIsDeposit | src/eth-txn-utils.js:105-112 | An accepted receipt stands for a deposit of its value if and only if its log is a Transfer event or the value is zero |
| Receipts.EventIsNotExamined | src/eth-txn-utils.js:105-112 | An Approval log that names the vault is accepted with whatever amount it names, and no Transfer is behind it |
| Amounts.SharesRecombine | src/migrations.js:39-66 | The immediate and the held-back share add up to the converted deposit; without vesting the former is all of it, with vesting they differ by at most one |
| Amounts.WholeTokens | src/migrations.js:20-32 | Whole tokens convert exactly: n times 10^18 units are n times 10^6 mainnet units |
| Amounts.ConversionSlack | src/migrations.js:27-32 | Conversion never overstates a deposit and understates it by less than 10^12 units |
| Erc20.SafeAddExact | erc20.sol:73-77 | The wrap-around test of SafeMath succeeds exactly when the true sum is below 2^256, and then gives it |
| Erc20.MoveConserves | erc20.sol:117-126 | A funded transfer never trips the overflow assert and conserves the supply, self-transfers included |
| Erc20.CallKeepsSupply | erc20.sol:117-230 | Every call of the contract, by anyone, keeps the balances summing to the initial supply |
| Erc20.TransferExact | erc20.sol:346-348 | A transfer succeeds exactly under its gates and funding; then it debits and credits exactly the value, changes nothing else, and logs sender, receiver and value |
| Erc20.TransferFromExact | erc20.sol:357-359 | The same for transferFrom, which needs and lowers the caller's allowance and logs the account debited |
| Erc20.ApproveExact | erc20.sol:179-183 | Approving never fails, sets exactly that allowance to the value, changes nothing else, and logs holder, spender and value |
| Erc20.ApprovedCanBeSpent | erc20.sol:157-183 | After an approval, a permitted and funded transferFrom of at most the value by the spender succeeds and leaves the rest of the allowance |
| Erc20.SupplyInvariant | erc20.sol:302-312 | After deployment and any sequence of transactions the balances sum to 10^27 |
| Erc20.IncreaseExact | erc20.sol:205-209 | Raising an allowance fails exactly when the sum would not fit 256 bits; otherwise it adds the value to that allowance, changes nothing else and logs the new one |
| Erc20.DecreaseExact | erc20.sol:221-230 | Lowering never fails, stops at zero, touches that allowance alone, logs the new one, and undoes a raise by the same value |
| Erc20.TransferOwnershipExact | erc20.sol:39-43 | It succeeds exactly for the owner and a non-zero successor, and changes and logs only the owner |
| Erc20.SetTokenOfferingExact | erc20.sol:320-328 | It succeeds exactly for the owner, while no offering is set and transfers are off, up to 10^27; the offering may then spend exactly the amount given, or all of it for zero |
| Erc20.EnableTransferExact | erc20.sol:333-338 | It succeeds exactly for the owner, turns transfers on and ends the offering's allowance |
| Erc20.DeploySupply | erc20.sol:302-312 | After deployment the deployer owns the contract and all 10^27 units, every allowance is zero, the admin is set, and transfers are off |
| Erc20.RelayedExact | erc20.sol:117-359 | A transaction through a relaying contract goes call by call: a failing call changes and logs nothing, the others add their events in order |
| Erc20.CallerPowers | erc20.sol:117-359 | Over all calls: tokens move only by allowed transfers; an allowance is changed only by its holder or lowered by its spender; roles change only by the owner's call; the offering is set only while unset and before transfers; enabling ends the offering's allowance |
| Erc20.RolesForever | erc20.sol:320-338 | Over any history of transactions the offering is set at most once and never after enabling, transfers once enabled stay so, the admin is fixed and the owner never becomes zero |
| Erc20.FrozenUntilEnabled | erc20.sol:267-270 | Until transfers are enabled, no history of transactions by others than owner, admin and offering moves a token or a role |
| DockToken.DockToken.Transfer | erc20.sol:117-126 | The method debits, credits and logs as specified, or leaves the whole state as it was |
| DockToken.DockToken.TransferFrom | erc20.sol:157-167 | The same for transferFrom |
| DockToken.DockToken.Submit | erc20.sol:117-359 | A whole transaction on the mutable contract, direct or relayed, changes it and is recorded as the call semantics says, so that the exact laws above hold of it; the supply is kept, failed calls leave no trace, and its record lists exactly the events of the calls that went through |
| Requests.StatusNumbers | src/constants.js:37-56 | The stored numbers tell the statuses apart and go up along the life of a request; both kinds of invalid are below zero |
| RequestTable.SelectWhere | src/db-utils.js:86-101 | A SELECT returns every matching row, each once, as it is in the table |
| RequestTable.SelectForDisbursal | src/db-utils.js:110-114 | ORDER BY and LIMIT: distinct matching rows, vesting ones first, and all of them when fewer than the limit |
| RequestTable.RequestTable.TrackNewRequest | src/db-utils.js:64-79 | A second request for the same key is refused and changes nothing; a new row holds the account and vesting choice given, is INVALID_BLACKLIST exactly for a blacklisted address and SIG_VALID otherwise, and has no other column set |
| RequestTable.RequestTable.RunAll | src/migrations.js:318-329 | The statements of a transaction run on the mutable table one by one; with one per key every row ends as its own statement leaves it |
| PipelineInvariant.ExecReady | src/db-utils.js:122-155 | What an UPDATE that finds its row as its writer left it means: a legal move of a row the writer owns, all rows stay well-formed, and no row of another process changes |
| Requests.DrainEach | src/bonus-utils.js:79-85 | With one statement per key, every row ends as its own statement leaves it |
| BonusShares.TotalsExact | src/bonus-utils.js:32-38 | Each row adds its deposit in whole mainnet units to the total, and to the vesting total exactly if it vests |
| BonusShares.BonusExact | src/bonus-utils.js:56-74 | Each bonus is the largest whole number not above the row's proportion of its pool; a row that does not vest gets no vesting bonus |
| BonusShares.SwapPoolDust | src/bonus-utils.js:56-63 | All swap bonuses together stay within the pool and miss it by less than the number of rows |
| BonusShares.VestingPoolDust | src/bonus-utils.js:65-70 | All vesting bonuses together stay within their pool and miss it by less than the number of vesting rows |
| BonusShares.SplittingNeverGains | src/bonus-utils.js:60-61 | Splitting a transfer in k parts never raises the sum of its bonuses and lowers it by less than k |
| BonusShares.ShareMonotone | src/bonus-utils.js:60-61 | Who transferred more gets no smaller bonus |
| BonusShares.BonusesOrderFree | src/bonus-utils.js:32-38 | Whether the calculation is possible, both totals and each row's bonuses do not depend on the row order |
| BonusShares.DivisibleExactly | src/bonus-utils.js:57-57 | The calculation divides by zero exactly when there are rows, or vesting rows, and all of their deposits are below 10^12 |
| PipelineWalk.TotalCanBeZero | src/bonus-utils.js:57-57 | Any real deposit below 10^12 units leads, by a run, to a table whose SELECT for calculation is not empty and has a zero total, against the comment |
| BonusCalculation.TotalUp | src/bonus-utils.js:25-38 | The totals accumulated in place are the sums over all rows and over the vesting rows |
| BonusCalculation.CalculateBonusGivenTransferredAmounts | src/bonus-utils.js:48-77 | It succeeds exactly when no total it divides by is zero; each row gets its own shares and the running totals are their sums |
| BonusCalculation.CalculateBonuses | src/bonus-utils.js:24-46 | The whole calculation: exact success condition, per-row bonuses, totals equal to sums, pools never exceeded |
| BonusDisbursal.FindAndPrepEligibleReqs | src/bonus-utils.js:109-155 | It returns separate copies of exactly the rows the optimal selection picks, with totals equal to what each row is due |
| BonusDisbursal.PrepareForBonusDisbursal | src/bonus-utils.js:157-183 | Although `iadd` overwrites numbers that totals may share, each recipient is the row's own account with exactly the total selection used and the offset of the row's block, and every total keeps its value; it throws exactly when some offset is not a safe number |
| BonusDisbursal.OffsetLaws | src/bonus-utils.js:161-167 | A row in the start block has offset 0, and n blocks later mean n times the block ratio more |
| BonusDisbursal.SafeNumbers | src/bonus-utils.js:167-167 | Safe are the numbers of at most 53 bits, of either sign |
| BonusDisbursal.PrepareBatch | src/bonus-utils.js:215-227 | The recipients are the accounts of the selected rows, each with its row's bonus and offset, at most the allowance many, and their amounts sum to at most the balance |
| BonusDisbursal.RowsSelect | src/bonus-utils.js:110-132 | Selecting among the copies and selecting among the rows agree |
| BonusScript.CalculateBonusesAndUpdateDB | src/bonus-utils.js:94-99 | The rows are exactly those with status INITIAL_TRANSFER_DONE and a vesting choice at a point of the call, all that were such at the call among them; on success each holds its own bonuses, and the totals returned are the sums of what the rows hold and within the pools; a smooth call fails exactly when a total it divides by is zero |
| BonusScript.DispatchBonusesAndUpdateDB | src/bonus-utils.js:200-235 | On success the number returned is how many rows left BONUS_CALCULATED, and it is 0 only when none is left; a smooth call fails only if an offset is no safe number, or there are rows to pay and the allowance is zero or each bonus of the batch exceeds the balance |
| BonusScript.PayAndRecord | src/bonus-utils.js:215-234 | On success a positive number of rows, at most the allowance, was paid and recorded, and nothing owed was lost or invented; it reports that nobody fits exactly when the selection is empty |
| BonusScript.DispatchAllBonuses | src/bonus.js:26-34 | The loop terminates; on success no row is left BONUS_CALCULATED, each that was has been paid its bonus once more, to its own account, and recorded, and the payout is exactly the sum of what was due, whatever the batches; it succeeds whenever every round is smooth and has an allowance and a balance for each single outstanding bonus, and no offset is unsafe |
| BonusScript.GiveBonuses | src/bonus-utils.js:227-229 | The recipients of the chain call are the accounts of the rows it pays, with the rows' amounts, all paid at once |
| BonusPayout.PayoutBalances | src/bonus-utils.js:200-235 | Under any interleaving without a new calculation or a lost write, bonuses paid plus bonuses owed are constant |
| BonusPayout.StepBalance | src/bonus-utils.js:229-232 | No single step of any process changes that sum |
| BonusPayout.CalculationLeavesNone | src/bonus-utils.js:79-99 | Once its writes took effect, no row awaits calculation and each selected row holds its own bonuses |
| BonusPayout.SecondCalculationIdle | src/db-utils.js:97-101 | A further calculation then selects nothing, computes zero totals and changes nothing |
| BonusPools.BonusesFitPools | src/bonus-utils.js:94-99 | Over every run, partial failures included, all bonuses of a kind held in the table are at most the pool times the number of calculations |

## Left out

- Deployment.Interleave: exceptions at awaits (e-mail alarms, failing nodes, rejected chain calls) are arbitrary choices of the model; what sends the mails and reads their settings is not modelled.
- Greedy.Sort: the stable sort of current JavaScript engines; an engine without a stable sort may choose other rows among equal amounts, which changes no count, cost or bound.
- RequestTable.Update: statement texts, placeholders and column types, including varchar lengths: an overflowing column would be a failed write.
- PipelineLedger.CrossLedgerConservation: the balance of the vault after the transfers is not followed, only the cumulative deposits; withdrawals from the vault do not matter to the claim.
- Migrator.ProcessPendingRequests: that some later run is smooth is up to nodes, chain and database; nothing is claimed about how long that takes.
- Migrator.ResetAllInvalidMigrations: PostgreSQL answers the COMMIT of a transaction in which an UPDATE failed with a rollback and no error, so the code may return normally with nothing changed; the model's outcome tells the two apart, the code does not.
- BonusScript.DispatchAllBonuses: the contract on success assumes that no calculation runs at the same time, as the script's own comment does; the safety theorems hold without it.
- The columns migration_txn_hash, bonus_txn_hash, signature and received_at, and block hashes returned by the Dock chain: they decide nothing about payments.
- `getRequestFromDB`, `removeMigrationReq`, `getStatsFromDB` and the floating-point statistics: display, or administration outside the protocol.
- The HTTP server, rate limits, the request windows, status messages and logging (`src/server.js`, `src/index.js`, `src/log.js`): a request enters the model as the insertion of a row with any vesting choice.
- Signature recovery, base58 and address checks (`src/util.js`): opaque libraries; addresses and hashes are abstract values.
- `formatBal`, `getTokenSplit` and the vesting messages: text only.
- The web3, polkadot and pg clients: nondeterministic answers, atomic batches and first-in-first-out statements.
- A chain reorganisation that changes the outcome or logs of a mined transaction: excluded by the first hypothesis.
- Reconciliation and one-off scripts, Etherscan paging, Truffle migrations and the shell files: single-pass reporting and set-up.
