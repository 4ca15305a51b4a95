# A verified model of the cobi executors

Cobi acts as the follower of atomic swaps. Its Bitcoin executor polls the orderbook, collects the
initiates, redeems and refunds that are due, and keeps **one** live Bitcoin transaction for all of
them: every poll replaces that transaction by a larger one that pays more. What has been put into
the live transaction, and how to rebuild it, is stored between polls. This project models that
machine, from the ledger up to whole runs of the executor, and proves that it pays no swap twice,
together with what this rests on; and it covers the EVM side, the log scan for secrets, and the
filler's and creator's arithmetic.

`dafny verify dfyconfig.toml` checks everything.

## What is modelled

| file | what it holds |
|---|---|
| `Bitcoin.dfy`, `Ledgers.dfy` | outputs, transactions, scripts, and the chain: what exists, what is spent, what was submitted and confirmed |
| `RbfPlan.dfy` | the specification of one wallet call: the plan of a list of actions as a function, the contract of the external transaction builder, what a call may answer |
| `RbfOptions.dfy` | `OptionRBF` as a record of slices and maps that others may share: copying, appending, what a record reaches |
| `Wallet.dfy` | `ExecuteRbf` and its parts as methods with the source's loops, which update the copied slices and maps in place, proved against `RbfPlan` |
| `RbfChain.dfy` | chains of replacements: conflict, incremental against from-scratch, growth of fees |
| `SignPlan.dfy` | how each input is signed, no outpoint twice, the size estimate |
| `BatchWallet.dfy` | the one-shot `BatchExecute` with inputs remembered by position, and its agreement with `ExecuteRbf` |
| `Orders.dfy`, `Executor.dfy` | orders, the choice of actions, `BatchData`, and the poll as methods |
| `Protocol.dfy` | the executor, its store and the ledger as a state machine, and the hypotheses on the outside world |
| `Safety.dfy`, `SafetySteps.dfy` | the inductive invariant, each step keeps it, the whole-run theorem |
| `Records.dfy` | the stored record agrees with the stored plan in every reachable state; every transaction of a run is signed right |
| `Forgotten.dfy` | what happens when the record forgets live chains: the exact condition for safety, and runs that pay twice without it |
| `TwinOrders.dfy` | two orders for one HTLC in one poll |
| `PoolSharing.dfy` | the one case in which new options share memory with the old |
| `Dispatch.dfy` | the EVM executor, its channels with retries after a delay, and both executors over the lifecycle of an order |
| `SecretScan.dfy` | the windowed scan for a revealed secret, with 64-bit wrap-around |
| `Pricing.dfy`, `Solvency.dfy` | creator amounts, strategy matching, the filler's balance check and its runs |
| `TextKeys.dfy` | the textual map keys identify what they are built from |

Objects the source updates (maps, `BatchData`, the executors, the indexer client) are classes,
slices are windows of arrays, and `OptionRBF` is passed by value, so that sharing is what it is in
the source; loops are loops. Each method is proved against a function, and the promises are proved
about that function.

The node, indexer, fee estimator, store, projector and orderbook are parameters: any answer, any
failure, a store write that may be lost, a store read that may fail, a node that may refuse, or that
takes a transaction while its answer is lost. The start of a poll, its look at each order,
its decision and its call of the wallet are separate steps of the state machine, so confirmations,
deposits and spends by others may come between any two of them.

## What the whole-run theorem assumes

`SafetySteps.NoDoublePayment` speaks of every run of `Protocol.Step` under `Protocol.Hyp`:

- **Harmless forgetting.** Whenever the executor drops the record of a chain, every HTLC that a live
  wallet transaction still pays is *barred*: the ledger holds more than three outputs at its address,
  or outputs worth the agreed amount, or one that was claimed. It drops a record when it resets
  (pkg/cobid/executor/bitcoin.go:185-190), and when the record of a chain's first transaction is lost,
  because its write fails or because the node took the transaction while the answer was lost. Later
  records may be lost freely, either way. It may forget as often as it likes.
- **Honest indexer.** When an order is checked, the answer lists outputs that exist, with their
  amounts, each once, and leaves out only outputs already claimed; and the orderbook does not ask to
  initiate an HTLC that was claimed. The answers a submission works with need only be true: they may
  miss anything, so they may be from any earlier moment (`Records.AnswersStayTrue`).
- **Distinct orders.** The orders of one poll differ in action or secret hash.
- **Ownership.** The wallet redeems HTLCs of others and refunds its own, so swap outputs, and wallet
  outputs, never overlap. Orders for one HTLC address agree on its amount. Any output, the wallet's
  own too, may be spent by anyone at any time.

The first hypothesis is exact: at every point of every run, a reset, and the loss of a first record,
is safe if and only if it holds (`Forgotten.ResetIsSafeExactly`,
`Forgotten.LostFirstRecordIsSafeExactly`), where safe means that no run from there on pays an HTLC
twice. A full address is what the check of pkg/swap/btcswap/btcswap.go:89-115 makes of every complete
answer (`Safety.GuardedIsFull`). The comment at pkg/cobid/executor/bitcoin.go:183-184 gives a reason
that is enough, the chain has confirmed or cannot any more (`Forgotten.SettledResetIsSafe`), but the
code does not make sure of it: pkg/swap/btcswap/wallet.go:370-372 and 400-402 return the same error
when a *new* action has no confirmed output, and the node returns it for any missing input.
`UnprovenResetPaysTwice` and `LostFirstRecordPaysTwice` are concrete runs that end in such an unsafe
state; up to the event that forgets the chain they meet every hypothesis above.
`TwinOrders.TwinOrdersPayTwice` is a run that meets every hypothesis but the third and pays twice:
the record is consulted as it was before the poll (pkg/cobid/executor/bitcoin.go:137-139), so both
orders are chosen.

The external builder is assumed to answer with the raw inputs in order, then a prefix of the offered
wallet outputs; the recipients in order, then at most one change output to the wallet; no negative
output; and a fee of at least rate times the size that pkg/swap/btcswap/wallet.go:477-478 estimates;
it fails only when no prefix pays. `Wallets.BuildRbfTransaction` is a small builder that meets this.
The estimator's rate and every virtual size are at least 1, the minimum relay fee is not negative,
transaction ids are in canonical form, and signing itself does not fail.

## Results beside the main theorem

- A chain cannot lose its anchor: the check at wallet.go:493-508 never fails, and the errors about
  missing sequences, scripts and secrets (wallet.go:514-517, 536-553) are unreachable.
- A call leaves the caller's options as they were, in all they reach. Its new options share no slice
  and no map with them, except that a replacement without any raw input keeps the list of wallet
  outputs (pkg/swap/btcswap/wallet.go:445 and 601). Such a call can succeed
  (`PoolSharing.PoolCanBeShared`), but in no reachable state (`Records.NeverKeepsPool`).
- The fee loop ends, and in every reachable state, whether the call succeeds or fails, it raises the
  rate at most to the larger of the starting rate and previous fee plus relay fee, one unit a round
  (`Records.RateIsBounded`).
- A refund is locked for exactly its timelock if and only if the timelock fits 16 bits: larger
  values lose their upper bits or the lock altogether (`SignPlan.RefundLocksExactly`).
- The Bitcoin executor never takes the redeem of an order whose two legs are both on Bitcoin, and it
  redeems with an empty secret where the EVM executor refuses (`Dispatch.ChainTakesItsShare`,
  `Dispatch.RedeemsWithoutSecret`; `Dispatch.RedeemLeftAlone` and `Dispatch.EmptySecretIsUsed` give
  such orders).
- The log scan finds a secret exactly when one was revealed up to the bound and the bound lies past
  the initiation; a secret revealed in the latest block is missed when that is also the block of the
  initiation. Overflowing steps do no harm.
- The creator's amount is right exactly when the 64-bit product does not wrap. A strategy with a fee
  of 100 % accepts nothing, one above that everything.
- The filler's Bitcoin check lets an uncovered order through exactly when the sum does not fit 64
  bits; and an undecodable listed amount crashes it (pkg/cobid/filler/filler.go:248-250 returns no
  sum and no error).

## Model

| member | source | states |
|---|---|---|
| SafetySteps.NoDoublePayment | pkg/cobid/executor/bitcoin.go:54-209 | Over every run of polls, checks, submissions, harmless resets and losses of records, confirmations, deposits, and spends of any output by anyone, in any order, each HTLC receives at most one confirmed payment from the wallet, whichever member of a replacement chain confirms |
| SafetySteps.StepKeeps | pkg/cobid/executor/bitcoin.go:54-209 | Every single step keeps the invariant: whatever can still confirm pays only unpaid HTLCs and conflicts with everything else that pays them, also across chains the record has forgotten |
| SafetySteps.LookKeeps | pkg/cobid/executor/bitcoin.go:85-152 | Looking at one order keeps the invariant, whatever happened since the poll began: keys are new and distinct, and every chosen initiate is for an HTLC not yet paid |
| SafetySteps.GuardMeansOpen | pkg/cobid/executor/bitcoin.go:141-151 | When the on-chain check lets an initiate through, no wallet transaction has paid that HTLC |
| Safety.PaidIsGuarded | pkg/swap/btcswap/btcswap.go:89-115 | After one confirmed payment of the agreed amount, every honest answer makes the check refuse for good |
| Safety.GuardedIsFull | pkg/swap/btcswap/btcswap.go:89-115 | Every complete answer makes the check refuse if and only if the ledger holds more than three outputs at the address or their sum reaches the agreed amount |
| Safety.ConfirmedAnswerDecides | pkg/swap/btcswap/btcswap.go:89-115 | A single complete answer whose outputs are all confirmed decides the same |
| Safety.ClosedIsBarred | pkg/cobid/executor/bitcoin.go:141-151 | No later poll can choose to initiate at an address if and only if it is full or one of its outputs was claimed |
| SafetySteps.SentKeeps | pkg/cobid/executor/bitcoin.go:180-205 | A submission keeps the invariant, whether the record is written or lost, for a first transaction when that is harmless; it may rest on any true answers, however old |
| SafetySteps.MissingKeeps | pkg/cobid/executor/bitcoin.go:185-190 | A harmless reset keeps the invariant, its chain joining those forgotten before |
| SafetySteps.ConfirmKeeps | pkg/swap/btcswap/wallet.go:493-508 | A confirmation keeps the invariant: whatever else would have paid the same HTLC can never confirm any more |
| Forgotten.ForgettingIsSafeExactly | pkg/cobid/executor/bitcoin.go:183-205 | With the records of any number of live chains gone, all runs stay safe if and only if every HTLC a live transaction pays is barred: more than three outputs stand at it, or enough to pay it, or one was claimed |
| Forgotten.ResetIsSafeExactly | pkg/cobid/executor/bitcoin.go:185-190 | At any point of any run, a reset, whatever caused it and however often records were forgotten before, is safe exactly under that condition |
| Forgotten.LostFirstRecordIsSafeExactly | pkg/cobid/executor/bitcoin.go:198-205 | At any point of any run, losing the record of a chain's first transaction is safe exactly under that condition |
| Forgotten.SettledResetIsSafe | pkg/cobid/executor/bitcoin.go:183-185 | At any point of any run, a reset is harmless when the chain has a confirmed transaction or an input common to all of it is spent |
| Forgotten.UnprovenResetPaysTwice | pkg/swap/btcswap/wallet.go:370-372 | A concrete run: a redeem without confirmed outputs resets the record of a live chain, and a double payment becomes possible |
| Forgotten.LostFirstRecordPaysTwice | pkg/cobid/executor/bitcoin.go:203-205 | A concrete run: the lost first write makes a double payment possible |
| Forgotten.OpenIsUnsafe | pkg/cobid/executor/bitcoin.go:141-151 | From any state without a record in which a live transaction pays an open HTLC there is a run that pays it twice |
| TwinOrders.TwinOrdersPayTwice | pkg/cobid/executor/bitcoin.go:137-139 | A concrete run in which a poll lists two orders for one HTLC and pays it twice, every other hypothesis holding |
| Records.RecordAgrees | pkg/cobid/executor/bitcoin.go:159-205 | In every reachable state the record is empty iff there is no chain, its keys are those of the planned actions, recipients match the initiates one to one, and every redeem or refund has its confirmed outputs among the raw inputs |
| Records.BumpReplacesBatch | pkg/cobid/executor/bitcoin.go:159-175 | A poll without new actions goes on only for a live batch whose rate is below the lowest projected one plus one, so a fee bump always replaces a real transaction whose rate is too low |
| Protocol.GoesOnExactly | pkg/cobid/executor/bitcoin.go:159-175 | A poll that has looked at every order goes on exactly with new actions, or for a non-empty record whose rate is below the lowest projected one plus one |
| Records.SubmissionsAreRight | pkg/swap/btcswap/wallet.go:511-561 | Every transaction of every run, built on true answers however old, spends different outputs that exist, signs each for the action that brought it in with its true amount, and counts each once in its size |
| Records.AnswersStayTrue | pkg/swap/btcswap/wallet.go:357-440 | An indexer answer that was true at some moment of a run is true from then on, so a submission may rest on earlier answers |
| Records.GuardsUnreachable | pkg/swap/btcswap/wallet.go:493-520 | In every reachable state the first-input check and the missing-data errors cannot fire, whatever the new actions are |
| Records.StoredFee | pkg/swap/btcswap/wallet.go:569-575 | In every reachable state the stored fee is not negative |
| Records.RateIsBounded | pkg/swap/btcswap/wallet.go:473-490 | In every reachable state, for whatever true answers a call works with, the signer's table holds the true value of every output and the rate the call gets to, on success or failure, is at most the larger of its first rate and previous fee plus relay fee |
| Records.NeverKeepsPool | pkg/swap/btcswap/wallet.go:594-602 | In no reachable state does a replacement lack raw inputs, so no call hands the caller's list of wallet outputs on |
| PoolSharing.PoolCanBeShared | pkg/swap/btcswap/wallet.go:445-601 | For every swap there are options, outside the reachable ones, with which a call can succeed and its new options keep the caller's list of wallet outputs |
| Wallets.ExecuteRbf | pkg/swap/btcswap/wallet.go:326-606 | Nothing the caller's options reach is changed on any path; on an error they are returned; on success the transaction and the new options are those the plan calls for, and the options share no memory with the caller's exactly when they do not keep its list of wallet outputs; every rate below the last one tried fell short. The first action that cannot be gathered decides the error, an unanswered address is the indexer's own error, and "missing or spent" means an answered address without a confirmed output, a refusal by the node, or no first input left; each other error has its cause |
| RbfOptions.CopyRBF | pkg/swap/btcswap/wallet.go:53-98 | The copy has the same contents, and all its slices and maps are new |
| RbfOptions.CopySlice | pkg/swap/btcswap/wallet.go:72-77 | A loop that fills a new slice with the same elements |
| RbfOptions.CopyTable | pkg/swap/btcswap/wallet.go:78-89 | A loop that fills a new map with the same entries |
| RbfOptions.Append | pkg/swap/btcswap/wallet.go:392-423 | Appending adds the elements at the end, in the same array or in a new one |
| RbfOptions.LoadOptions | pkg/cobid/executor/store.go:111-127 | Options read from the store have the stored contents and share memory with nothing |
| Wallets.GatherActions | pkg/swap/btcswap/wallet.go:350-428 | The loop over new actions yields the plan of the gathered actions added to the options, or the error of the first action that fails |
| Wallets.AddRedeem | pkg/swap/btcswap/wallet.go:374-393 | A redeem appends its outputs, marks each with type, script and secret in the shared maps, and adds their witness sizes |
| Wallets.AddRefund | pkg/swap/btcswap/wallet.go:404-424 | A refund appends its outputs, marks each with type, script and 32-bit timelock in the shared maps, and adds their witness sizes |
| Wallets.Prepare | pkg/swap/btcswap/wallet.go:331-458 | The signer's table ends up with the value of every stored, gathered and wallet output; the draft's memory is its own; the caller's options are as they were |
| Wallets.FetchPool | pkg/swap/btcswap/wallet.go:436-446 | A first transaction is offered the wallet's confirmed outputs, a replacement the frozen list |
| Wallets.RemoveUnconfirmedUtxo | pkg/swap/btcswap/wallet.go:832-840 | Exactly the confirmed outputs remain, in order (BIP 125, rule 2) |
| Bitcoin.ConfirmedOnlyConcat | pkg/swap/btcswap/wallet.go:832-840 | Filtering two lists one after the other is filtering their concatenation: order and repeats are kept |
| Wallets.AdjustFee | pkg/swap/btcswap/wallet.go:473-490 | The loop ends; at its exit the fee is at least the previous fee plus size times relay fee (BIP 125, rules 3 and 4); at every rate from the starting one up to the one before the last a candidate fell short, and the rate never passes the larger of the starting rate and previous fee plus relay fee; it fails only when the funds do not pay at the rate reached |
| Wallets.BuildRbfTransaction | pkg/swap/btcswap/wallet.go:468-471 | A builder that meets the contract the wallet relies on, and fails only when no prefix of the wallet outputs pays |
| Wallets.HasFirstInput | pkg/swap/btcswap/wallet.go:493-508 | The search answers whether some input of the first transaction is spent again |
| Wallets.Sign | pkg/swap/btcswap/wallet.go:510-561 | Sequences and witnesses are set in place for every input by its type, or an error is returned exactly when some input lacks its data |
| Wallets.SetSequences | pkg/swap/btcswap/wallet.go:510-520 | Every refund input, and no other, gets its timelock as sequence, in place |
| Wallets.Unlock | pkg/swap/btcswap/wallet.go:523-561 | The witness of an input by its type, or an error exactly when its script or secret is missing |
| Wallets.BuildSigned | pkg/swap/btcswap/wallet.go:467-561 | What leaves building, fee adjustment, the first-input check and signing is a transaction the call may submit |
| Wallets.RecordTx | pkg/swap/btcswap/wallet.go:574-603 | The stored options after a submission, with the wallet outputs split off when they become raw inputs; which memory they keep and which is new |
| RbfPlan.FeeAtLeast | pkg/swap/btcswap/wallet.go:473-480 | The fee the signer computes is at least rate times size |
| RbfPlan.EnoughRate | pkg/swap/btcswap/wallet.go:475-482 | The exit test can only fail while the rate is below previous fee plus relay fee |
| RbfChain.AtMostOneOfChainConfirms | pkg/swap/btcswap/wallet.go:493-508 | Once one transaction of a chain is confirmed, no other member can be |
| RbfChain.BranchesConflict | pkg/cobid/executor/bitcoin.go:198-205 | A lost write inside a live chain is harmless: everything rebuilt from any older record conflicts with everything submitted before |
| RbfChain.SuccessorSpendsStoredInputs | pkg/swap/btcswap/wallet.go:575-603 | Each later transaction spends every raw input stored by each earlier one |
| RbfChain.ChainSharesAnchor | pkg/swap/btcswap/wallet.go:577-603 | The first raw input is always an input of the first transaction and spent by all |
| RbfChain.GuardNeverFails | pkg/swap/btcswap/wallet.go:494-508 | The check that one of the first inputs is still spent cannot fail |
| RbfChain.IncrementalIsFromScratch | pkg/swap/btcswap/wallet.go:351-428 | After any number of calls the recipients, raw inputs, size and four signature maps are one function of the concatenated actions, after the wallet inputs a first initiate-only call froze |
| RbfPlan.ExtendConcat | pkg/swap/btcswap/wallet.go:351-428 | Planning two lists one after the other is planning their concatenation |
| RbfPlan.GatherPrefixError | pkg/swap/btcswap/wallet.go:352-427 | The first action that cannot be gathered decides the error |
| RbfPlan.GatherExactly | pkg/swap/btcswap/wallet.go:352-427 | A list of actions is gathered, in order and with all confirmed outputs listed for each, exactly when no action fails; otherwise the error is that of the first that does: wrong network, unknown action, an address without an answer, or an answer without a confirmed output |
| RbfPlan.InputsExactly | pkg/swap/btcswap/wallet.go:330-446 | A call stops before it builds exactly for such an action, an estimator that does not answer, or, for a first transaction, wallet outputs that are not answered; otherwise it works with those outputs |
| RbfPlan.StartRateIs | pkg/swap/btcswap/wallet.go:460-465 | The first rate is the estimate, for a replacement at least the previous rate plus the relay fee |
| Protocol.MissingExactly | pkg/cobid/executor/bitcoin.go:183-190 | The record may be reset exactly when the first action that fails was answered without a confirmed output, or a call with known inputs is refused by the node or finds no first input |
| Executors.FailedExactly | pkg/cobid/executor/bitcoin.go:191-193 | The record is left alone exactly when anything else stops the call, or it cannot pay, cannot sign, or is against the node's policy |
| RbfChain.FeesGrow | pkg/swap/btcswap/wallet.go:460-490 | Over n replacements the rate grows by at least n relay fees and the fee by the relay fee times the sum of the n sizes |
| RbfChain.ReplacementPays | pkg/swap/btcswap/wallet.go:460-480 | One replacement pays a higher rate and the fee of what it replaces plus its own relay (BIP 125, rules 3 and 4) |
| SignPlan.SignPlanIsRight | pkg/swap/btcswap/wallet.go:511-561 | In every replacement each input is signed with its own action's script and secret, or script and sequence (BIP 68), wallet inputs with the wallet key, all for the true amount |
| SignPlan.RefundLocksExactly | pkg/swap/btcswap/wallet.go:513-520 | The sequence of a refund encodes a relative lock of exactly the swap's number of blocks (BIP 68) if and only if that number is at least 0 and below 65536 |
| SignPlan.SequenceIsTruncated | pkg/swap/btcswap/wallet.go:420 | In general the sequence is the timelock modulo 2^32 |
| SignPlan.SigningDataIsComplete | pkg/swap/btcswap/wallet.go:513-553 | No input of any candidate lacks its signing data |
| SignPlan.NoOutpointTwice | pkg/swap/btcswap/wallet.go:436-446 | A transaction spends no outpoint twice, also after the wallet outputs are split |
| SignPlan.EstimateCountsEveryInput | pkg/swap/btcswap/wallet.go:477-478 | The virtual size behind the fee is the estimator's for the number of inputs, the outputs, and the sum of the witness sizes over all inputs, each once, by how it is signed, also after line 602 overwrote it |
| SignPlan.PlanCovers | pkg/swap/btcswap/wallet.go:388-390 | The marked outpoints are exactly the gathered ones, and each has all it needs |
| SignPlan.StoredOps | pkg/swap/btcswap/wallet.go:587-602 | Stored raw inputs and remaining wallet outputs are together exactly what was offered |
| BatchWallet.BatchExecute | pkg/swap/btcswap/wallet.go:166-324 | No actions is no transaction; otherwise the transaction handed to the node pays the plan and is signed by position, and the answer is the node's, which may be an error although it took the transaction; nothing is handed over exactly when an input is missing or the batch cannot be paid |
| BatchWallet.BatchRefinesRbf | pkg/swap/btcswap/wallet.go:182-317 | With everything confirmed, the one-shot form works with the same inputs, and submits a transaction exactly when the replaceable form could submit it as a first one |
| BatchWallet.HonestBatchRefines | pkg/swap/btcswap/wallet.go:182-317 | So on every call with true, confirmed answers and actions under keys of their own: all offered outputs are then different |
| BatchWallet.BatchInputsAgree | pkg/swap/btcswap/wallet.go:182-266 | With everything confirmed and every refund expired, both forms gather the same |
| BatchWallet.BatchOneExactly | pkg/swap/btcswap/wallet.go:187-254 | One action fails for a wrong network, an unknown action, a question without an answer, a redeem without any output, or a refund that has not expired; otherwise it brings in all outputs listed, confirmed or not |
| BatchWallet.BatchGatherExactly | pkg/swap/btcswap/wallet.go:182-254 | The first action that fails decides; otherwise all are gathered in order |
| BatchWallet.BatchInputsExactly | pkg/swap/btcswap/wallet.go:256-266 | The one-shot form works with every listed wallet output, confirmed or not |
| BatchWallet.PositionAgreesWithKey | pkg/swap/btcswap/wallet.go:282-317 | Signing by position and signing by outpoint give every input the same witness and sequence |
| BatchWallet.OriginsCoverRawInputs | pkg/swap/btcswap/wallet.go:209-210 | The position map's domain is exactly the positions of the raw inputs |
| BatchWallet.OriginOwnsPosition | pkg/swap/btcswap/wallet.go:240-241 | Each position is mapped to the action whose output stands there |
| BatchWallet.Expired | pkg/swap/btcswap/btcswap.go:196-219 | A swap has expired when some confirmed output is old enough, in 64-bit arithmetic |
| BatchWallet.ExpiredExactly | pkg/swap/btcswap/btcswap.go:209-217 | For heights and timelocks that occur, a swap has expired when some confirmed output is at least as many blocks below the tip as the timelock, or above the tip |
| BatchWallet.SignByPosition | pkg/swap/btcswap/wallet.go:282-317 | The loops set sequence and witness of every input as its position says |
| Executors.InitiatedCheck | pkg/swap/btcswap/btcswap.go:89-115 | The confirmed sum against the amount, an error above three outputs, and the height of the last confirmed payment |
| Executors.BitcoinExecutor.Consider | pkg/cobid/executor/bitcoin.go:85-152 | What one order adds to the batch: an action, nothing, or the end of the poll, as the next four rows say |
| Orders.InitiateTaken | pkg/cobid/executor/bitcoin.go:96-97 | An initiate is taken exactly when the follower's leg on this chain waits for it, its key is new, and the indexer lists at most three outputs whose confirmed ones are worth less than the amount |
| Orders.RedeemTaken | pkg/cobid/executor/bitcoin.go:103-126 | A redeem is taken exactly when the follower's leg on another chain is redeemed and the initiator's leg on this chain is initiated, with a new key; it carries the initiator's swap and the very bytes the follower's leg shows |
| Orders.RefundTaken | pkg/cobid/executor/bitcoin.go:98-99 | A refund is taken exactly when the follower's leg on this chain has expired and the key is new; it carries the follower's swap |
| Orders.NothingElseTaken | pkg/cobid/executor/bitcoin.go:124-129 | Nothing else is taken, and the poll is given up exactly at a due redeem whose secret is not hexadecimal |
| Executors.BitcoinExecutor.CollectNew | pkg/cobid/executor/bitcoin.go:83-153 | The loop over orders returns the taken items in order, one for each order that gives one, and gives up exactly when some order does |
| Orders.SelectedExactly | pkg/cobid/executor/bitcoin.go:83-153 | The selected actions are the items taken at increasing places of the list, and every other order is skipped |
| Executors.BitcoinExecutor.Decide | pkg/cobid/executor/bitcoin.go:62-175 | The first half of a poll goes on with the items taken, never past an order that gives up, and without items exactly for a non-empty record whose rate is below the lowest projected one plus one |
| Executors.DecisionPath | pkg/cobid/executor/bitcoin.go:83-175 | That decision is a path of protocol steps: the start, a look at each order until one aborts, and the decision |
| Executors.BitcoinExecutor.Execute | pkg/cobid/executor/bitcoin.go:177-205 | The second half, with the wallet call, the reset and the record update, is one step of the protocol; a call that stops before it builds resets the record for "missing or spent" alone and leaves record and ledger as they are for every other error, such as an indexer that does not answer; a transaction the node took while its answer was lost is sent and not recorded; every rate below the last one tried fell short |
| Executors.BitcoinExecutor.Poll | pkg/cobid/executor/bitcoin.go:54-205 | A whole poll is a path of protocol steps from the state before to the state after, empty exactly when the orders or the record cannot be read; its last step is the wallet call when there is work, with the same guarantee about the record, and it says to which rate the call got |
| Executors.BatchData.AddExecuteAction | pkg/cobid/executor/store.go:41-45 | The action's key, and no other, is added |
| Executors.BatchData.constructor | pkg/cobid/executor/store.go:28-33 | The record holds the given value; a new one is empty |
| Dispatch.ChainTakesItsShare | pkg/cobid/executor/bitcoin.go:92-114 | The Bitcoin executor takes exactly its chain's share of the lifecycle decision, unless both legs are on its chain and a redeem is due |
| Dispatch.RedeemLeftAlone | pkg/cobid/executor/bitcoin.go:92-114 | For every chain and swap, an order with both legs on that chain whose due redeem is not taken |
| Dispatch.ExactlyOneExecutor | pkg/cobid/executor/ethereum.go:122-159 | With legs on different supported chains each due action is taken by exactly one executor |
| Dispatch.LifecycleOrder | readme.md:93-110 | Along every life of an order, whenever the executors look, the dispatched actions with repeats collapsed are a subsequence of initiate-redeem or of initiate-refund |
| Dispatch.RedeemsWithoutSecret | pkg/cobid/executor/bitcoin.go:103-129 | The Bitcoin executor takes a redeem with an empty secret if and only if the redeem is due on its chain alone, its swap parses, it was not executed before, and the follower's leg shows no bytes; the EVM executor takes a due redeem on its chains if and only if a secret is there |
| Dispatch.EmptySecretIsUsed | pkg/cobid/executor/bitcoin.go:123-135 | For every swap, an order the Bitcoin executor redeems with no bytes and no EVM executor would touch |
| Dispatch.EvmExecutor.ProcessOrder | pkg/cobid/executor/ethereum.go:122-146 | One order queues its due action on the chain of its leg and touches no other queue; a due redeem whose secret text is absent is an error |
| Dispatch.EvmPicksExactly | pkg/cobid/executor/ethereum.go:128-143 | The queued item is the follower's leg as it is, to initiate or to refund, or the initiator's leg with the follower's secret, to redeem, exactly when the statuses call for it |
| Dispatch.RedeemUsesShownSecret | pkg/cobid/executor/ethereum.go:138-193 | A redeem that is sent uses the very bytes the follower's leg shows |
| Dispatch.EvmExecutor.Enqueue | pkg/cobid/executor/ethereum.go:148-159 | An action for an unsupported chain is skipped |
| Dispatch.EvmExecutor.ChainWorker | pkg/cobid/executor/ethereum.go:161-228 | The worker of one chain under any interleaving of arrivals, answers of the chain, and retried items that come back after their minute, each at its own time |
| Dispatch.EvmExecutor.WorkItem | pkg/cobid/executor/ethereum.go:169-215 | What becomes of one item under the chain's answers, and the secret it is sent with |
| Dispatch.FateExactly | pkg/cobid/executor/ethereum.go:169-215 | An item is sent exactly when its guard holds and the chain takes it, comes back exactly when a question or the chain fails or a refund is not due, and is dropped exactly when swap or secret cannot be read |
| Dispatch.QueueConserved | pkg/cobid/executor/ethereum.go:161-228 | Every item that was there or arrived is sent, given up, waiting to be retried or queued, and none is duplicated |
| Dispatch.FirstComeFirstServed | pkg/cobid/executor/ethereum.go:148-162 | The worker takes items in the order they entered the channel, also those that came back |
| Dispatch.SentWasGuarded | pkg/cobid/executor/ethereum.go:177-211 | An initiate is sent only when the contract said it is not initiated, a refund only when it said expired, a redeem only with a decodable secret |
| Dispatch.GoneWasFinal | pkg/cobid/executor/ethereum.go:163-212 | Items are given up only when they could not be read or nothing was left to do |
| Dispatch.WaitingWasRetried | pkg/cobid/executor/ethereum.go:217-226 | Items wait to be tried again only when the chain told them to come back |
| Dispatch.QueueDrains | pkg/cobid/executor/ethereum.go:161-228 | While nothing arrives and the chain asks for no retry, the queue empties in order and nothing is left waiting that was not before |
| SecretScan.Secret | pkg/swap/ethswap/ethswap.go:65-120 | The scan ends for every step and gives up exactly when the node refuses a window it asks for, none of which lies past the bound; otherwise it answers the secret of the first event of the swap from the initiation to the bound, or that there is none |
| SecretScan.ScannedFirst | pkg/swap/ethswap/ethswap.go:113-115 | The secret found is that of the first event that reveals it, said of the events themselves |
| SecretScan.FindsEveryRedeem | pkg/swap/ethswap/ethswap.go:79-119 | A secret is found exactly when one was revealed from the initiation to the bound and the bound lies past the initiation; the step does not matter |
| SecretScan.OneWindow | pkg/swap/ethswap/ethswap.go:96-117 | One window followed by the rest answers as the whole range does: no block is skipped |
| SecretScan.WindowMoves | pkg/swap/ethswap/ethswap.go:97-116 | Each window brings the scan nearer to its end, also when the 64-bit sum wraps |
| Pricing.AmountExactly | pkg/cobid/creator/creator.go:93 | The created amount is the truncated share exactly when the product fits 64 bits |
| Pricing.CreatedPasses | pkg/cobid/creator/creator.go:93 | An order created at a fee passes every filler at a fee that is not higher |
| Pricing.CompatibleExactly | pkg/cobid/filler/strategy.go:50-59 | All amounts created at one fee pass a filler's fee if and only if the filler's is not higher |
| Pricing.PriceTest | pkg/cobid/filler/strategy.go:50-59 | The price test as a comparison of whole numbers, for every fee |
| Pricing.Match | pkg/cobid/filler/strategy.go:54-87 | An order matches exactly when price, maker and amount are right; each error is returned exactly when it names the first of price, maker, amount, lower and upper limit that is not |
| Solvency.StaysSolvent | pkg/cobid/filler/filler.go:126-164 | Through every interleaving of fills, executions and deposits, balance plus network fees covers all filled and unexecuted orders |
| Solvency.FilledIsFill | pkg/cobid/filler/filler.go:139-162 | An order filled on answers that are the account's balance and book is a fill step of the run |
| Solvency.UncoveredExactly | pkg/cobid/filler/filler.go:209-211 | The Bitcoin check lets an uncovered order through exactly when the sum does not fit 64 bits |
| Solvency.BalanceCheck | pkg/cobid/filler/filler.go:175-230 | The check passes exactly when every answer is there, there is gas, and the balance covers the order and all unexecuted ones |
| Solvency.PassesExactly | pkg/cobid/filler/filler.go:175-230 | The check passes exactly when amount, gas, balance and book are there, the gas on an EVM chain is more than the minimum, and the balance covers the order with all that is owed; it crashes exactly at an order whose amount cannot be read |
| Solvency.FillOrder | pkg/cobid/filler/filler.go:139-162 | The first tick that ends the attempts decides the outcome; an order is filled only at a tick whose check passed |
| Solvency.TickExactly | pkg/cobid/filler/filler.go:144-161 | A tick fills the order exactly when its check passes and the orderbook accepts, and ends the attempts otherwise exactly when someone else filled it or the check crashes |
| Solvency.UnexecutedAmount | pkg/cobid/filler/filler.go:232-255 | The sum over filled orders of this chain and asset that have not started |
| Solvency.UnexecutedIsSum | pkg/cobid/filler/filler.go:242-255 | What is owed adds up over the parts of the book, order by order |
| TextKeys.UtxoKeyIdentifies | pkg/swap/btcswap/wallet.go:27-29 | Two outputs have the same map key exactly when they are the same outpoint |
| TextKeys.ActionKeyIdentifies | pkg/cobid/executor/store.go:35-45 | Two actions have the same record key exactly when action and secret hash agree |

## Left out

- Network clients, Redis and JSON encoding, websockets and their backoff, the mempool projector, logging, environment and command line: input and output; they appear as parameters that may fail.
- Signatures, script assembly, address encoding and hashing: an input carries which script, secret, sequence and amount it is signed with; a hash is represented by what it commits to. The script recorded beside each amount in the previous-output table is not modelled; witness version 0 signatures do not depend on it.
- The builder, the size estimator and the HTLC contract are external; they are contracts, as listed above.
- Satoshi sums are not wrapped to 64 bits, except in the filler's check and the creator's amount, where the inputs are not bounded by the supply of coins.
- Wallets.ExecuteRbf: the wallet's lock is not modelled, and the ten-second timeout only as answers that fail or are lost. Asked twice about one address during a call, the indexer gives one answer; the answers may be from different moments.
- Executors.BitcoinExecutor.Poll: the method runs while nothing else moves; that the world may move between the steps it is made of is what the runs of the protocol are about.
- BatchWallet.SignByPosition: the source reads a missing position as an empty action; the model proves that no position is missing.
- Pricing.PriceTest: prices are exact rationals, without floating-point rounding, and the orderbook's price is taken to be initiator amount over follower amount.
- SecretScan.Secret: block numbers of the chain are taken to be below 2^63.
- Dispatch.EvmExecutor.ChainWorker: channels are unbounded.
- Solvency.StaysSolvent: check and fill are one step; two strategies filling at the same moment are not modelled.
- `wallet.Initiate`, `Redeem` and `Refund`, `ordersToString` and `ordersFromString`, `Initiators`, `Redeemed`, the creator's loop and its copy of the balance check, EVM nonces, random intervals, start and stop: they would add only easy members.
- Liveness: that a transaction is eventually confirmed.
