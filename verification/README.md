# Bondsman, verified

A Dafny model of Bondsman: agents post a bond before an invoice pool pays a vendor on their word, anyone may challenge
the payout inside a window, and a proven fault slashes the bond. `dafny verify dfyconfig.toml` checks the whole project.

**The contract suite.** `BondsmanControllerV2`, `BondVaultV2`, `InvoicePoolV2`, the two fault verifiers and the CEP-18
token are one composed state machine. Each keeps its own copy of the story: statuses and posted bonds in the
controller, bonds and `total_locked` in the vault, invoices, first payers and duplicates in the pool, balances in the
token. No contract checks that the copies agree. The main theorems say they agree in every state that any interleaving
of agents, challengers, owners and strangers can reach, and draw the consequences: the vault is solvent, no unit is
lost, resolving never gets stuck, every slash has its cause.

- `Ledger`, `Vault`, `Pool`, `Delivery`, `Pricing`, `Suite`: each entry point as a function from state to state or revert.
- `Contracts`, `Deployment`: the same as objects that update their storage in place, proved against those functions; a
  transaction that reverts is rolled back over all of them, and the deployment script ends in a state runs may start from.
- `Journal`, `Wiring`: a history of what each successful transaction did, and the proof that it did just that.
- `Custody`, `Payments`, `Justice`, `Reachable`: the invariants and their preservation.
- `Theorems`, `Outcomes`, `Calls`, `Owners`: the results, over whole runs and call by call: what each call writes, the
  only reasons it can revert for, and what only the owners can do.
- `V1`, `ContractsV1`, `Simulation`, `Twins`: the first version of the contracts, and the proof that V2 restricted to
  duplicate claims is V1, for the states and for the deployed objects.
- `Cases`: reached states in which the suite and its watchdog fall short.

**The backend.** The paid-quote protocol under interleaved requests (`Quotes`, `PaidSubmit`,
`SubmitHistory`, `StrandedRuns`), the sliding-window spend
guard (`SpendGuard`, `SpendBudget`), the views that must agree with the chain (`Policy`, `Watchdog`, `Bridge`), the
watchdog's scan on a moving chain (`WatchdogScan`), and the codecs and scanners (`Decimal`, `ClaimCodec`, `Attestation`, `JsonScanner`, `CanonicalJson`).

## What is assumed

- Runs start wired and unused (`Reachable.Genesis`): controllers and pool finalised, genuine verifiers registered, no
  allowance from the vault or the pool, no action yet. Money, unpaid invoices and spent evidence may already exist.
  `Deployment.DeployV2` proves that the deployment script ends in such a state.
- Callers are outside the suite, the block time never runs back, and the two fault classes are only ever re-registered
  to the genuine verifiers (`Journal.Admissible`). Everything else is open: any caller, any call, any order, any revert.
- The CEP-18 library is not part of this model. Its ledger is taken to refuse a transfer to oneself, to check the
  allowance and then the balance, and otherwise to move exactly the amount.
- Ed25519 (section 5.1.7 of RFC 8032) is uninterpreted; hashes are parameters, collision-free where a lemma says so.

## Where the code falls short of what one might expect

Each is modelled as the code has it, with the exact condition under which it does what is expected.

- A bonded action can be stuck for good, its bond neither refundable nor slashable: exactly when its invoice is paid by
  another action, disagrees with it, or is owed to the pool itself (`Outcomes.StuckExactlyWhenBlocked`;
  `Cases.BlockedIsReachable` is a run that ends so).
- The watchdog and the collision check go by action ids, the chain by the order of payouts. What detection and
  eligibility report is always sound. The collision check is right about every paid action exactly when, for each
  claim, the first action to pay it has the least id of those that did (`Bridge.CollisionAgrees`); detection misses an
  open duplicate exactly when that duplicate has the least id (`Bridge.DetectedOnChainExactly`,
  `Bridge.DetectionIsComplete`). `Cases.OutOfOrderIsMissed` is a run that reaches such a state.
- Spend checks and spend records are separate calls, with a wait for the chain between them. Serialised for an account
  they keep every budget in every window. Overlapping, they may not: what is outstanding can be recorded in any way
  without overshooting exactly when all of it still fits together (`SpendBudget.OutstandingFitExactly`;
  `SpendBudget.OverlappingPairsOvershoot` is a run that overshoots).
- The watchdog's total of rewards falls behind what the chain paid it exactly by the rewards of transactions outside its
  scan, of its own resolves that land unheard, and of those whose recording fails (`WatchdogScan.GapExactly`;
  `Cases.RewardsAreMissed` reaches a state from which each happens).
- A request whose action reached the chain ends with its quote paid again, free to back a second action, exactly when
  submitting threw after the action had executed, or another quote already names the action
  (`PaidSubmit.StrandedExactly`; `StrandedRuns` has a run for each).
- docs/INVARIANTS.md says that a tripped signer is refused until an operator intervenes or the window rolls forward. In
  the code a trip is only reported: `assertSpendAllowed` never reads it, and refuses on the windows alone
  (`SpendGuard.Guard.AssertSpendAllowed`; `SpendBudget.TrippedYetGranted` is granted right after a trip).
- docs/INVARIANTS.md says that expired actions cannot execute. In the code a bonded action has no expiry; the window
  starts when it executes.
- README.md gives the claim hash as one over debtor and invoice number joined. The code hashes a length-prefixed text,
  which is why distinct claims have distinct texts.

## Model

| member | source | states |
|---|---|---|
| Theorems.CopiesAgree | contracts/bondsman_controller_v2/src/bondsman_controller_v2.rs:34-38 | In every reachable state action ids are exactly 0..next; no vault bond iff `Initiated`; a locked bond of the same agent and amount iff `Bonded`, `Executed` or `Challenged`, fully posted; `Slashed` iff `ResolvedSlash`; `Released` iff `ResolvedRefund` |
| Theorems.VaultIsSolvent | contracts/bond_vault_v2/src/bond_vault_v2.rs:16-18 | In every reachable state `total_locked` is the sum of the open actions' bonds and the vault's token balance covers it |
| Theorems.NothingIsLost | contracts/bond_vault_v2/src/bond_vault_v2.rs:16-18 | Over every run: bonds deposited = locked + refunded + challenger rewards + reserve credits; `reserve_balance` = those credits = the reserve shares of slashed actions; pool balance = its start + gifts − payouts + reserve; payouts = amounts of executed actions; supply = sum of balances, moved only by minting |
| Theorems.ResolveNeverStuck | contracts/bondsman_controller_v2/src/bondsman_controller_v2.rs:38 | In every reachable state `resolve_action` succeeds iff the action is challenged, or executed with its window over: no inner guard, transfer or subtraction ever stops it |
| Theorems.SlashPaysInFull | contracts/bondsman_controller_v2/src/bondsman_controller_v2.rs:38 | Resolving a challenged action gives the challenger the floored share, the pool's balance and its reserve counter both the rest, and takes the whole bond out of the vault and `total_locked` |
| Theorems.RefundPaysInFull | contracts/bondsman_controller_v2/src/bondsman_controller_v2.rs:38 | Resolving an unchallenged action past its window returns the whole bond to the agent and leaves the pool alone |
| Theorems.ExecuteExactly | contracts/bondsman_controller_v2/src/bondsman_controller_v2.rs:36 | In every reachable state `execute_action` succeeds iff its own agent calls it, it is bonded, its invoice is unpaid and agrees in amount and claim, and the pool can pay a vendor other than itself; the bond test never decides |
| Theorems.ChallengeExactly | contracts/bondsman_controller_v2/src/bondsman_controller_v2.rs:37 | In every reachable state `challenge_action` succeeds iff the action is executed, inside its window, and is a flagged duplicate or contradicted by valid unspent evidence |
| Theorems.StepClimbs | contracts/bondsman_controller_v2/src/bondsman_controller_v2.rs:34-38 | One step keeps an action's terms and never lowers its rank; if the rank stays, the whole action stays |
| Theorems.RunClimbs | contracts/bondsman_controller_v2/src/bondsman_controller_v2.rs:34-38 | So does every run of a wired suite; a resolved action never changes again |
| Theorems.RunRemembers | contracts/invoice_pool_v2/src/invoice_pool_v2.rs:22-23 | Along every run invoice terms are fixed, `paid` never flips back and a flagged duplicate stays flagged |
| Theorems.OnlyRefundRemains | contracts/bondsman_controller_v2/src/bondsman_controller_v2.rs:37-38 | Past its window and unchallenged, an action stays executed or is refunded, in every continuation |
| Calls.InitiateWrites | contracts/bondsman_controller_v2/src/bondsman_controller_v2.rs:34 | Anyone's call stores, under the next id, an action with its caller, invoice, claim, amount and reasoning hash, the bond at the caller's score, and nothing else set |
| Calls.PostReverts | contracts/bondsman_controller_v2/src/bondsman_controller_v2.rs:35 | In every reachable state posting reverts only for an unknown action, another caller, a status past `Initiated`, a short allowance or a short balance, in that order; the vault's guards never decide |
| Calls.PostLocksInFull | contracts/bondsman_controller_v2/src/bondsman_controller_v2.rs:35 | A posted bond leaves the agent's balance and its allowance to the vault in full, reaches the vault and `total_locked`, and touches no other allowance |
| Calls.ExecuteReverts | contracts/bondsman_controller_v2/src/bondsman_controller_v2.rs:36 | The only reasons executing can revert for, in order, in every reachable state; the bond test decides only for an unbonded action with a bond above zero |
| Calls.ExecutePaysInFull | contracts/bondsman_controller_v2/src/bondsman_controller_v2.rs:36 | The vendor gains and the pool loses the action's amount, just that invoice becomes paid, and the window opens for the configured seconds |
| Calls.ChallengeReverts | contracts/bondsman_controller_v2/src/bondsman_controller_v2.rs:37 | The only reasons a challenge can revert for, in order, in every reachable state; the invoice is never missing |
| Calls.ChallengeWrites | contracts/bondsman_controller_v2/src/bondsman_controller_v2.rs:37 | A successful challenge writes its caller, class and evidence on that action and moves no money |
| Calls.ResolveReverts | contracts/bondsman_controller_v2/src/bondsman_controller_v2.rs:38 | The only reasons resolving can revert for; no inner call is among them |
| Calls.VerifyExactly | contracts/delivery_contradiction_verifier_v2/src/delivery_contradiction_verifier_v2.rs:13-23 | A direct call over the suite's pool reverts iff the invoice is unknown, and spends the evidence iff its 120 bytes, ids, dates, key and signature all pass, spelled out |
| Calls.AllowancesExactly | contracts/mock_cspr_usd/src/mock_cspr_usd.rs:43-47 | What each token call does to every allowance |
| Calls.GuardedCallsMoveMoney | contracts/bond_vault_v2/src/bond_vault_v2.rs:15-18 | Called by whoever the vault and the pool obey, wired or not, each of their guarded entry points moves books and money together |
| Owners.SubmitExactly | contracts/invoice_pool_v2/src/invoice_pool_v2.rs:22 | Listing succeeds iff the owner calls under a fresh id, and stores the submitted amount, vendor, claim, purchase order, deadline and buyer key, each in its field, unpaid; nothing else changes |
| Owners.InvoicesAreAsListed | contracts/invoice_pool_v2/src/invoice_pool_v2.rs:22-23 | In every reachable state each invoice has, field by field, the terms of the owner's entry that listed it, or those it started with |
| Owners.OnlyTheOwnerMints | contracts/mock_cspr_usd/src/mock_cspr_usd.rs:28-33 | Every minting entry of a reachable journal was sent by the token's owner |
| Owners.OnlyTheOwnerRegisters | contracts/bondsman_controller_v2/src/bondsman_controller_v2.rs:33 | Of all transactions only the owner's registration changes the verifiers, and only at the class it names |
| Owners.PointingExactly | contracts/bondsman_controller_v2/src/bondsman_controller_v2.rs:32 | Pointing the vault, the pool or the controller succeeds iff the owner does it for the first time, changes nothing else, and is otherwise refused for the stated reason |
| Outcomes.PayoutsMatchInvoices | contracts/invoice_pool_v2/src/invoice_pool_v2.rs:22-23 | Actions at `Executed` or later and paid invoices are in bijection, agreeing on amount and claim |
| Outcomes.DuplicateIndexIsPayoutOrder | contracts/invoice_pool_v2/src/invoice_pool_v2.rs:23-24 | `paid_claims[c]` is the first action in payout order with claim `c`; `action_dup[a]` iff a strictly earlier payout used the claim `a` paid |
| Outcomes.OneHonestPayerPerClaim | contracts/invoice_pool_v2/src/invoice_pool_v2.rs:23-24 | Of the paid actions with one claim exactly one, the recorded first payer, is no duplicate |
| Outcomes.SlashesAreJustified | contracts/bondsman_controller_v2/src/bondsman_controller_v2.rs:37-38 | Every challenged or slashed action was challenged at a time within its window by its challenger, either as a proven later payer and not the first, or by 120 bytes naming it and its invoice, dated between deadline and block time, with a readable signature accepted under the invoice's readable 32-byte buyer key |
| Outcomes.WindowsRunFromThePayout | contracts/bondsman_controller_v2/src/bondsman_controller_v2.rs:36 | An executed action's window ends the configured seconds, in milliseconds, after the block time of its payout, whatever happened since |
| Outcomes.RefundsComeAfterTheWindow | contracts/bondsman_controller_v2/src/bondsman_controller_v2.rs:38 | Every refunded action was refunded its full bond, at a time after its window |
| Outcomes.OutcomesAreExclusive | contracts/bondsman_controller_v2/src/bondsman_controller_v2.rs:38 | In a whole run an action is ended at most once, and its status says which way |
| Outcomes.EvidenceIsSingleUse | contracts/delivery_contradiction_verifier_v2/src/delivery_contradiction_verifier_v2.rs:11-24 | Over every run, direct verifier calls with foreign pools included, no evidence value is accepted twice |
| Outcomes.ReputationIsTheRecord | contracts/bondsman_controller_v2/src/bondsman_controller_v2.rs:38 | `clean` and `slashed` count an agent's refunded and slashed actions, and `score` = 10·clean − 50·slashed |
| Outcomes.BondsKeepTheirPrice | contracts/bondsman_controller_v2/src/bondsman_controller_v2.rs:34 | Every action still carries the invoice, claim, amount and reasoning hash it was initiated with, and the bond priced at the score its agent had then |
| Outcomes.CallsAreBounded | contracts/bondsman_controller_v2/src/bondsman_controller_v2.rs:35-38 | n actions admit at most 4n successful post, execute, challenge and resolve calls; the number made follows from the statuses |
| Outcomes.BlockedForEver | contracts/invoice_pool_v2/src/invoice_pool_v2.rs:23 | A bonded action whose invoice is paid, disagrees or is owed to the pool stays so in every continuation |
| Outcomes.StuckExactlyWhenBlocked | contracts/bondsman_controller_v2/src/bondsman_controller_v2.rs:36 | A bonded action stays bonded in every continuation iff it is blocked; otherwise a run exists that executes it |
| Cases.BlockedIsReachable | contracts/invoice_pool_v2/src/invoice_pool_v2.rs:23 | A run in which two agents bond on one invoice reaches a state where one of them is blocked in every continuation |
| Wiring.StepExplained | contracts/bondsman_controller_v2/src/bondsman_controller_v2.rs:32-38 | Every successful transaction of a wired suite does what its journal entry says to all the contracts and balances, and nothing else |
| Wiring.GuardsHold | contracts/bond_vault_v2/src/bond_vault_v2.rs:15-18 | From outside the suite no vault or pool entry point reserved to owner or controller succeeds once wired |
| Reachable.StepKeepsGood | contracts/bondsman_controller_v2/src/bondsman_controller_v2.rs:31-38 | Every transaction, successful or reverted, keeps all the invariants together |
| Reachable.RunKeepsGood | contracts/bondsman_controller_v2/src/bondsman_controller_v2.rs:31-38 | So does every admissible run |
| Payments.PayoutKeepsIndexed | contracts/invoice_pool_v2/src/invoice_pool_v2.rs:23 | The two updates of `payout` keep the index exact for the extended payout order |
| Ledger.MoveConserves | contracts/mock_cspr_usd/src/mock_cspr_usd.rs:46-47 | A transfer conserves the sum of balances, shifts exactly the amount and touches nobody else |
| Ledger.Refusals | contracts/mock_cspr_usd/src/mock_cspr_usd.rs:28-47 | When each token call is refused, and with which reason |
| Vault.Refusals | contracts/bond_vault_v2/src/bond_vault_v2.rs:16-18 | What the vault refuses before any money moves, and with which reason |
| Pool.Refusals | contracts/invoice_pool_v2/src/invoice_pool_v2.rs:22-25 | What the pool refuses before any money moves, and with which reason |
| Vault.ShareAtMostAll | contracts/bond_vault_v2/src/bond_vault_v2.rs:18 | The challenger's floored share never exceeds the bond, so the remainder does not underflow |
| Pricing.PriceInFigures | contracts/bondsman_controller_v2/src/bondsman_controller_v2.rs:40 | The bond in figures: 200 basis points below 10 000 000 000 000 base units, 300 from there, 500 from 50 000 000 000 000, plus one for each point below zero, 300 at most, floored |
| Pricing.BondFloors | contracts/bondsman_controller_v2/src/bondsman_controller_v2.rs:40 | Bonds lie between the floors of 200 and 800 basis points |
| Pricing.BondMonotone | contracts/bondsman_controller_v2/src/bondsman_controller_v2.rs:40 | A larger amount never needs a smaller bond, across tier edges too |
| Pricing.BondAntitone | contracts/bondsman_controller_v2/src/bondsman_controller_v2.rs:40 | A better score never needs a larger bond |
| Pricing.BondSuperadditive | contracts/bondsman_controller_v2/src/bondsman_controller_v2.rs:40 | Splitting a payout never needs more bond than paying it at once |
| Pricing.QuoteStaysFresh | backend/src/api/routes.ts:206-249 | A quoted bond is covered at any current score whose negative part is at least as low as the quoted one's |
| Pricing.FreshExactly | backend/src/evidence/bond-economics.ts:21-49 | From 10 000 base units on, it is covered iff the penalty has not shrunk |
| Contracts.Token.Mint | contracts/mock_cspr_usd/src/mock_cspr_usd.rs:28-33 | Only the owner mints; supply and one balance grow by the amount, or nothing happens |
| Contracts.Token.TransferFrom | contracts/mock_cspr_usd/src/mock_cspr_usd.rs:47 | Refuses a self transfer, a short allowance or a short balance; otherwise allowance and balances move together |
| Contracts.BondVault.SetController | contracts/bond_vault_v2/src/bond_vault_v2.rs:15 | The owner sets the controller once |
| Contracts.BondVault.DepositAndLock | contracts/bond_vault_v2/src/bond_vault_v2.rs:16 | One bond per action, pulled from the agent's allowance, locked and counted, or the revert of the first failing test |
| Contracts.BondVault.Release | contracts/bond_vault_v2/src/bond_vault_v2.rs:17 | A locked bond goes back to its agent and leaves the running total, once |
| Contracts.BondVault.Slash | contracts/bond_vault_v2/src/bond_vault_v2.rs:18 | A locked bond is split between challenger and pool and leaves the running total, once |
| Contracts.InvoicePool.SubmitInvoice | contracts/invoice_pool_v2/src/invoice_pool_v2.rs:22 | Succeeds iff the owner calls under a fresh id, and stores each submitted term in its own field, unpaid |
| Contracts.InvoicePool.Payout | contracts/invoice_pool_v2/src/invoice_pool_v2.rs:23 | Pays an agreeing unpaid invoice once, and records the first payer of its claim or flags the duplicate |
| Contracts.InvoicePool.AddToReserve | contracts/invoice_pool_v2/src/invoice_pool_v2.rs:25 | Only the controller credits the reserve |
| Contracts.DeliveryVerifier.Verify | contracts/delivery_contradiction_verifier_v2/src/delivery_contradiction_verifier_v2.rs:11-24 | Confirms and spends the evidence iff it is unspent and proves the fault; an unknown invoice reverts; nothing else is spent |
| Contracts.BondsmanController.InitiateAction | contracts/bondsman_controller_v2/src/bondsman_controller_v2.rs:34 | A fresh action under the next id, priced at the caller's score |
| Contracts.BondsmanController.PostBond | contracts/bondsman_controller_v2/src/bondsman_controller_v2.rs:35 | Controller, vault and token move together to the bonded state, or the call reverts for the stated reason |
| Contracts.BondsmanController.ExecuteAction | contracts/bondsman_controller_v2/src/bondsman_controller_v2.rs:36 | Controller, pool and token move together to the executed state, or the call reverts for the stated reason |
| Contracts.BondsmanController.ChallengeAction | contracts/bondsman_controller_v2/src/bondsman_controller_v2.rs:37 | The verifier of the class decides; a confirmed fault records challenger, class and evidence |
| Contracts.BondsmanController.ResolveAction | contracts/bondsman_controller_v2/src/bondsman_controller_v2.rs:38 | Slash, refund or revert, over all four contracts at once |
| Deployment.Chain.Submit | contracts/bondsman_controller_v2/src/bondsman_controller_v2.rs:30-41 | A transaction has all of its effect on every contract, or none of it |
| Deployment.Chain.SubmitAll | contracts/bondsman_controller_v2/src/bondsman_controller_v2.rs:30-41 | The objects after any list of transactions hold the state that the run's history ends in |
| Deployment.DeployV2 | contracts/cli/src/v2.rs:20-34 | The deployment script ends in a wired, unused suite owned by the deployer, with a 1 800 second window, 5 000 basis points, the two verifiers, and 500 000 and 2 000 000 tokens in base units for the agent and the pool |
| Simulation.StepSimulates | contracts/bondsman_controller/src/bondsman_controller.rs:161-323 | Forgetting what V1 lacks, a V2 call that V1 has gives the same error or the same state as V1 |
| Simulation.NewEntryPointsStutter | contracts/bondsman_controller_v2/src/bondsman_controller_v2.rs:33 | A V2 entry point that V1 lacks changes nothing V1 can see |
| Simulation.RunSimulates | contracts/bondsman_controller/src/bondsman_controller.rs:161-323 | Every V2 run whose challenges are duplicate claims ends, after forgetting, where the V1 run does |
| Twins.SubmitToBoth | contracts/bondsman_controller/src/bondsman_controller.rs:161-323 | The V1 and V2 objects, fed the same admissible transactions with challenges for duplicate claims only, hold the same state after forgetting |
| ContractsV1.InvoicePool.Payout | contracts/invoice_pool/src/invoice_pool.rs:92-133 | V1 pays an agreeing unpaid invoice once, and records the first payer or flags the duplicate |
| ContractsV1.BondsmanController.ExecuteAction | contracts/bondsman_controller/src/bondsman_controller.rs:216-240 | V1 controller, pool and token move together to the executed state, or the call reverts |
| ContractsV1.BondsmanController.ChallengeAction | contracts/bondsman_controller/src/bondsman_controller.rs:242-265 | V1 asks the pool's flag itself and accepts only duplicates in time |
| ContractsV1.BondsmanController.ResolveAction | contracts/bondsman_controller/src/bondsman_controller.rs:267-323 | V1 slash, refund or revert, over all the contracts at once |
| Quotes.Repository.UpsertPaidQuote | backend/src/db/repositories.ts:359-389 | A new row, or new terms on the old one, which keeps what became of it and its first snapshot; refused, changing nothing, for a settlement another quote has |
| Quotes.Repository.ReservePaidQuote | backend/src/db/repositories.ts:405-412 | True iff the quote was paid and unconsumed, which it then no longer is |
| Quotes.Repository.ConsumePaidQuote | backend/src/db/repositories.ts:422-428 | A held quote is consumed for one action; refused, changing nothing, if another quote names the action |
| Quotes.FreshnessExactly | backend/src/api/routes.ts:206-249 | A row as quoting leaves it is fresh iff the current price covers the quoted one, and never stale while the debt of reputation has not shrunk |
| SubmitHistory.CheckPassesExactly | backend/src/api/routes.ts:639-664 | A check passes iff the row exists, is paid, has not expired, is for the fault class, has a buyer key where needed and a payer, agrees with its snapshot, and the current price covers its bond; each spelled out |
| SubmitHistory.AuthorizePassesExactly | backend/src/api/routes.ts:665-694 | Authorization passes iff the signature is genuine and the nonce new, which it uses up |
| SubmitHistory.ReservePassesExactly | backend/src/db/repositories.ts:405-420 | A reservation succeeds iff the row is paid and names no action, changes that row alone, and a release undoes it |
| SubmitHistory.RequoteExactly | backend/src/db/repositories.ts:359-389 | A re-quote refreshes terms, expiry and payer and keeps the rest and the first snapshot; refused iff another row has the settlement |
| SubmitHistory.SuccessWrites | backend/src/db/repositories.ts:422-428 | A successful finish writes status, action and time on its own row, and nothing else |
| SubmitHistory.HeldWasCheckedInTime | backend/src/api/routes.ts:639-705 | Over every run a request past authorization was checked less than 900 000 ms after a quoting of its quote, and then genuinely authorized |
| PaidSubmit.QuotesAreExclusive | backend/src/api/routes.ts:636-745 | Under any interleaving at most one request holds a quote, and a quote is `consuming` iff one does |
| PaidSubmit.SuccessesAreInjective | backend/src/api/routes.ts:636-745 | Successful submits share neither quote nor action, and each quote names its action |
| PaidSubmit.OneQuotePerSettlement | backend/src/db/schema.ts:132-133 | Under any interleaving one settlement transaction backs at most one quote |
| PaidSubmit.NoncesPassOnce | backend/src/db/repositories.ts:430-453 | Under any interleaving a nonce hash passes at most once |
| PaidSubmit.ConsumedForEver | backend/src/db/repositories.ts:359-428 | A consumed quote stays consumed for the same action in every continuation, re-quoting included |
| PaidSubmit.StoredQuotesStayFresh | backend/src/verify/x402.ts:280-378 | In every reachable state a stored quote has the snapshot of its own price, and is fresh iff the current price covers it |
| PaidSubmit.StrandedExactly | backend/src/api/routes.ts:706-745 | When a request whose action reached the chain ends, its quote is paid again iff submitting threw after the action executed (backend/src/api/arm.ts, lines 825-887) or another quote names the action; otherwise it is consumed for the action |
| PaidSubmit.FinishFailsExactly | backend/src/api/routes.ts:706-745 | The consuming step alone fails, and pays the quote back, iff another quote names the action |
| StrandedRuns.OneQuoteTwoActions | backend/src/api/arm.ts:825-887 | A run in which one payment backs two executed actions, the first stranded by a throw after it executed |
| StrandedRuns.TwoQuotesOneAction | backend/src/api/routes.ts:706-745 | A run in which a request that acted finds its action named by another quote, and its quote is paid again |
| PaidSubmit.SubmitRoute.FinishSubmit | backend/src/api/routes.ts:700-745 | Consumes the held quote and succeeds, or releases it and fails, as the protocol's finishing step does |
| SpendGuard.PermittedExactly | backend/src/ops/spend-guard.ts:138-145 | The check in figures: four sums over 3 600 000 and 86 400 000 ms against the account's own four limits, or the common ones |
| SpendGuard.UsageGrows | backend/src/ops/spend-guard.ts:112-124 | A record adds its motes and one transaction to exactly its own account's windows that reach it |
| SpendGuard.RecoveredExactly | backend/src/ops/spend-guard.ts:196-210 | A tripped account is released iff its time is past and all four sums are below its limits |
| SpendGuard.Guard.Usage | backend/src/ops/spend-guard.ts:112-124 | `usage` and `transactionCount` on the pruned history give the sums over the full log |
| SpendGuard.Guard.AssertSpendAllowed | backend/src/ops/spend-guard.ts:126-158 | Grants iff the four named limits hold on the full log over windows given in milliseconds; a refusal changes only the account's trip, to the end of the longer exceeded window |
| SpendGuard.Guard.RecordSpend | backend/src/ops/spend-guard.ts:160-187 | Logs the spend, and releases exactly the tripped accounts below every limit past their time |
| SpendGuard.HistoryAnswersForLog | backend/src/ops/spend-guard.ts:106-124 | Pruning loses nothing any window up to a day can see |
| SpendBudget.BudgetsHold | backend/src/ops/spend-guard.ts:126-187 | In every serialised run, for every account and instant, each of the four sums over the last 3 600 000 and 86 400 000 ms stays within its own named limit |
| SpendBudget.OutstandingFitExactly | backend/src/casper/odra-cli.ts:145-168 | With the log in budget, every way of recording the outstanding grants stays in budget iff, for each account, kind and span, what the window holds now and all that is outstanding are within the limit |
| SpendBudget.OverlappingPairsOvershoot | backend/src/casper/odra-cli.ts:145-168 | A run of two overlapping pairs ends over the hour's and the day's limit |
| SpendBudget.Callers.TakeAll | backend/src/ops/spend-guard.ts:126-187 | Whatever checks, records and give-ups are made through the guard's own entry points, its log and the grants follow the modelled run |
| SpendBudget.TrippedYetGranted | backend/src/ops/spend-guard.ts:126-158 | An account refused and tripped for an hour is granted a smaller spend at once |
| Policy.PricesAgree | backend/src/policy/engine.ts:61-74 | For every positive amount and score the engine's bond text is the controller's `get_bond_required` |
| Policy.AcceptedAmounts | backend/src/policy/engine.ts:31-36 | An amount text is accepted, as n, iff it is the decimal text of a positive n |
| Policy.OtherAmountsAreRefused | backend/src/policy/engine.ts:61-74 | Pricing throws iff the text is of no positive number |
| Policy.QuoteInFigures | backend/src/policy/engine.ts:38-74 | The engine's rate and bond in the same figures, with -20 for an unknown score |
| Policy.TiersExactly | backend/src/policy/engine.ts:54-59 | High is exactly 500 basis points or more, elevated exactly 300 up to 499, standard exactly below 300 |
| Watchdog.DetectDuplicateActions | backend/src/watchdog/detection.ts:13-37 | One pass with a set of seen claims picks exactly the challengeable records whose claim was paid further up in id order |
| Watchdog.DetectedExactly | backend/src/watchdog/detection.ts:13-37 | Whatever the order of the table, a record is returned iff it is challengeable and a smaller id paid its claim |
| Watchdog.EligibleExactly | backend/src/api/eligibility.ts:3-32 | An action is eligible iff no ineligibility reason is found against it |
| Watchdog.ReasonsExactly | backend/src/api/eligibility.ts:17-32 | Which reason is given, and when |
| Watchdog.MatchesExactly | backend/src/verify/service.ts:14-42 | Given a claim hash or an action id, ids are returned iff a paid action has the claim, below the id if there is one |
| Watchdog.CollidesExactly | backend/src/verify/service.ts:14-42 | Given an action id the check says yes iff a paid action with a smaller id has the claim |
| Bridge.DetectionIsSound | backend/src/watchdog/detection.ts:13-37 | On a faithful projection every action detected is an on-chain duplicate whose challenge succeeds now |
| Bridge.EligibilityIsSound | backend/src/api/eligibility.ts:3-15 | So is every eligible action |
| Bridge.DetectedOnChainExactly | backend/src/watchdog/detection.ts:13-37 | On a faithful projection a record is returned iff it is an open, unreserved, unchallenged on-chain duplicate that has not the least id among the payers of its claim |
| Bridge.DetectionIsComplete | backend/src/watchdog/detection.ts:13-37 | Detection returns every open duplicate iff none of them has the least id among the payers of its claim |
| Bridge.CollisionAgreesOn | backend/src/verify/service.ts:14-42 | On a faithful projection of a reachable state the collision check and `action_dup` agree on a paid action iff it is the first payer of its claim just when it has the least id of the payers |
| Bridge.CollisionAgrees | backend/src/verify/service.ts:14-42 | They agree on every paid action iff the first payer of each claim has the least id of its payers |
| Bridge.ClaimCollisionAgrees | backend/src/verify/service.ts:14-42 | Asked about a claim hash the check says yes iff the chain has a payer for it, in whatever order |
| Cases.OutOfOrderIsMissed | backend/src/watchdog/detection.ts:13-37 | A run reaches a state where detection, on a faithful projection, misses an open duplicate, and the collision check clears it and blames the first payer |
| Bridge.RewardIsHalf | backend/src/watchdog/service.ts:163-170 | The recorded reward is the on-chain challenger share for every bond iff the share is 5 000 basis points |
| WatchdogScan.CatchesAreSlashes | backend/src/watchdog/service.ts:59-189 | Over every interleaving of scan steps, other transactions, lost answers and late projections, each recorded catch is an action the chain slashed on the watchdog's challenge, with the reward it paid; what the chain paid the watchdog is the recorded total plus what is in flight and what was let slip |
| WatchdogScan.NeverCaughtTwice | backend/src/watchdog/service.ts:163-186 | An action challenged or resolved and not yet recorded has no catch, whatever the projection showed |
| WatchdogScan.GapExactly | backend/src/watchdog/service.ts:128-186 | Each step widens the gap between rewards paid and rewards recorded by exactly what it lets slip: a payment outside the scan, an own resolve that landed unheard, or a landed one whose recording fails |
| Cases.RewardsAreMissed | backend/src/watchdog/main.ts:68-115 | A run reaches a state from which each of the three lets a reward of 100 slip |
| WatchdogScan.StepKeepsFair | backend/src/watchdog/service.ts:59-189 | Every scan step, foreign transaction and refresh keeps the books true to the chain |
| WatchdogScan.WatchdogService.CheckAgain | backend/src/watchdog/service.ts:98-111 | A candidate is kept in hand iff its record exists and a fresh detection still returns it |
| WatchdogScan.WatchdogService.ResolveAnswered | backend/src/watchdog/service.ts:128-161 | The service goes on to record only if it was told that the resolve landed; it may have landed untold |
| WatchdogScan.CatchIsWritten | backend/src/watchdog/service.ts:163-186 | The row a catch writes agrees with the chain's action in status, challenger and bond; every other row is unchanged |
| WatchdogScan.RecheckExactly | backend/src/watchdog/service.ts:98-111 | A candidate is kept iff its row is executed, unchallenged, unreserved and in its window, and is a proven duplicate behind a smaller paid id or has 120 bytes of evidence |
| WatchdogScan.ChallengeNames | backend/src/watchdog/main.ts:68-91 | A challenge that lands is the watchdog's, on the action in hand, with the class and evidence it was checked for |
| WatchdogScan.WatchdogService.Finish | backend/src/watchdog/service.ts:162-186 | The catch and its row, slashed with the watchdog as challenger, are written iff what precedes them succeeded; otherwise nothing is |
| Bridge.AttestationConvictsOn | backend/src/verifiers/delivery-attestation.ts:62-83 | The challenge with an accepted attestation succeeds iff it comes within the window, the event lies between deadline and block time, the evidence is unspent, and the contract's library can read the signature |
| Bridge.AttestationConvicts | backend/src/verifiers/delivery-attestation.ts:62-83 | The same with key and deadline taken from the entry that listed the invoice |
| Attestation.PayloadRoundTrip | backend/src/verifiers/delivery-attestation.ts:38-45 | For all u64 values and 32-byte nonces the payload is 56 bytes and its slices give them back |
| Attestation.LittleEndian | contracts/delivery_contradiction_verifier_v2/src/delivery_contradiction_verifier_v2.rs:16-19 | Eight bytes are read least significant first |
| Attestation.EvidenceRoundTrip | backend/src/verifiers/delivery-attestation.ts:62-83 | Accepted iff the key parses, the signature verifies and has 64 bytes; then 120 bytes, from which the contract's slices recover the numbers, the signed prefix and the signature |
| Attestation.EvidenceNamesOneInput | contracts/delivery_contradiction_verifier_v2/src/delivery_contradiction_verifier_v2.rs:16-22 | Any 120 bytes are the evidence of the input their slices name |
| Attestation.AcceptedEvidenceProves | backend/src/verifiers/delivery-attestation.ts:62-83 | Accepted evidence proves the fault to the contract, for an invoice under its key, iff dated between deadline and block time and its signature is one the contract's library can read |
| ClaimCodec.DecodeInvertsClaimInput | backend/src/agent/hashing.ts:9-14 | A parser returns (debtor, number) iff the text is their encoding, whatever digits, colons and bars they contain |
| ClaimCodec.ClaimText | backend/src/agent/hashing.ts:9-14 | The text itself, for one claim |
| ClaimCodec.ClaimInputInjective | backend/src/agent/hashing.ts:9-14 | Distinct pairs never share an encoding |
| JsonScanner.JsonObjects | backend/src/agent/decision.ts:13-41 | The index loop finds the slices of the one-character-at-a-time scanner |
| JsonScanner.SlicesInOrder | backend/src/agent/decision.ts:13-41 | The source is the slices, in order and disjoint, with gaps between, then a tail and the unfinished slice |
| JsonScanner.SlicesAreFixedPoints | backend/src/agent/decision.ts:13-41 | Scanning a slice gives that slice alone |
| JsonScanner.ObjectsConcatenate | backend/src/agent/decision.ts:13-41 | After a text that ends outside braces and quotes, scanning starts over |
| JsonScanner.ObjectsAreTopLevelGroups | backend/src/agent/decision.ts:13-41 | On every text whose braces outside strings balance, the slices are exactly its outermost brace groups, whatever strings (section 7 of RFC 8259) contain |
| JsonScanner.ParseDecision | backend/src/agent/decision.ts:43-54 | The first slice that decodes, or an error iff none does |
| CanonicalJson.SortValueIdempotent | backend/src/evidence/replay.ts:27-35 | Sorting a sorted tree changes nothing |
| CanonicalJson.CanonicalExactly | backend/src/evidence/replay.ts:27-35 | Two trees sort alike iff they differ only by key order, at any depth |
| CanonicalJson.StableJsonExactly | backend/src/evidence/replay.ts:23-35 | Such trees print alike, and with a printer that separates trees only they do |

## Left out

- Contracts.BondsmanController.constructor: requires the basis points `init` accepts, 10 000 at most; the revert on more is not modelled, since no suite then exists.
- Contracts.BondsmanController.ChallengeAction: calls the two genuine verifiers over the suite's pool; a verifier registered from elsewhere is outside the assumptions.
- Contracts.DeliveryVerifier.Verify: takes the invoice the named pool answers as an argument; a foreign pool that calls back into the suite while it answers is not modelled.
- PaidSubmit.SubmitRoute.CheckQuote: the ways a request is refused are one refusal; error codes, idempotency keys and the response body are not modelled.
- SpendGuard.Guard.RecordSpend: takes the estimate in motes; parsing of gas and signer names, warnings, reasons and the percentages of the report are left out.
- Attestation.EvidenceRoundTrip: the request is taken decoded; base64, key export, hashing of short nonces and the size of JavaScript numbers are left out.
- JsonScanner.ParseDecision: JSON parsing and the decision schema are one parameter.
- CanonicalJson.CanonicalExactly: `localeCompare` is a strict total order on keys, and keys that look like array indices, which JavaScript objects reorder, are left out; so is the text `JSON.stringify` prints.
- WatchdogScan.CatchesAreSlashes: a projection may be late but tells the bond of a paid action.
- WatchdogScan.WatchdogService.CheckAgain: takes the attestation's evidence as an argument; looking it up, and marking it used or free again, are left out with the attestation table.
- PaidSubmit.StrandedExactly: steps of submitting short of execution, such as a bond posted and not executed, count as nothing executed.
- Bridge.DetectionIsSound: of a faithful projection; how events bring the projection up to date is left out, and some transitions emit no event.
- Machine widths: amounts, ids, counters and times are unbounded, so an overflow of U256, u64, u32 or i64 is not modelled.
- Ring-fencing: the pool does not keep its reserve apart from its other money, so nothing here says its balance covers `reserve_balance`.
- Contract events other than the journal this model keeps itself, and the read-only getters.
- Deployments in progress: calls between the steps of the deployment script by anyone but the deployer.
- The attestation table, whose used mark is reset by a re-posted attestation, and `detectDeliveryContradictions`, which does not look at deadlines.
- The watchdog's first selection of candidates and their order, which the second check makes irrelevant here; delays, and the reasoning text.
- Quote columns no step reads (action type, verifier, window, payment amount, facilitator, creation time), and SQL itself.
- The UTF-8 encoding and BLAKE2b hash of the claim text; unpaired surrogates would share an encoding.
- Casper RPC, command-line tools, HTTP, streams, the language-model client, the web frontend and the design system.
