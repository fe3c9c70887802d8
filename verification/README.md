# N Chainz: a verified model

N Chainz is an exchange whose ledger lives on many chains. Every token has a chain of claims, transfers,
freezes and orders; the MATCH chain settles trades between orders of two tokens, creates tokens and cancels
orders. All chains feed one in-memory consensus state. A node that follows another branch of one chain must
undo blocks exactly, although the blocks of the other chains stay; a node that restarts replays what it has
stored in whatever order it meets the chains; and a matcher that keeps its own books must propose only what
the ledger accepts.

The project has four parts.

* **Ledger, undo and replay.** `Amounts`, `Transactions`, `Fills`, `TokenLedger`, `TokenLaws`, `Ledger` give
  the ledger as a value, with 64-bit wrap-around written out. `Commutation`, `Schedules`, `Timelines`,
  `Determinism`, `OrderHistory`, `Conservation`, `Effects`, `Freezes`, `Cascade`, `Survival`, `Grouping`, `TokenGenesis`,
  `Admission` prove what holds over runs of any length. `ConsensusState`, `Chain`, `GenericTransactions`,
  `Blockchains`, `Restart` are the program's objects, with the same fields and loops, proved against the values.
  `Recovery` is the replay of stored chains as a function of the order in which they come up; `LiveRestart`,
  `Forgetting` and `Restarted` compare a restarted node with a live one. `Market` builds concrete nodes, in which
  the exceptional cases of the theorems occur.
* **Reconciliation** with a peer: `Reconcile`, over the chains of `Chain` and `Blockchains`.
* **Matching.** `Heaps`, `OrderQueue`, `Orderbook`, `Matcher` are the program's queues, books and matcher;
  `Agreement`, `Findings`, `Mined` relate them to the ledger.
* **Addresses.** `Base58`.

The central device is the *timeline*: the blocks of all chains in the order in which they were added. A
consensus state in good order is the replay of a timeline (`Blockchains.Mirrors`). A rollback takes
transactions out of the middle of it, and what makes that sound is that steps of different chains commute and
that a step which nothing later depends on can be moved to the end.

## What was found

* The overflow test of the validator never fires (`Ledgers.NeverOverflows`).
* No credit ever wraps at 64 bits, except that a freeze until a height that the chain has already reached can
  wrap the store of frozen funds. Over all runs to a chain height h, exactly the freezes until a height u with
  1 <= u <= h are unsafe (`Freezes.SafeOnRunsIff`); on nodes, whose first block of a token chain freezes nothing,
  exactly those with 2 <= u <= h (`Freezes.SafeOnNodesIff`).
* The rollback of a match does not check whether the leftover of a depleted order has been claimed. If it has,
  the owner's claim goes below zero and wraps; a run from the empty ledger gets there
  (`Market.SpentLeftoverWraps`). A transaction can be taken out of the history exactly when no match names the
  order it placed, or all that the match paid, leftovers included, is still unclaimed (`Timelines.TakeOutIff`).
* A rollback to a height goes through exactly when no MATCH block that has to go created a token and what stays
  has a history of its own (`Multichain.Blockchains.RollbackToHeight`). What stays of the MATCH chain is what
  comes before the first match that names an order that was cut off.
* A restarted node has its state and its chains again exactly when no freeze of any funds fell due while it ran,
  and the replay refuses no block that had created a token with a stored chain (`Restarted.RecoveredIff`). The
  replay never releases frozen funds; and taking back a refused block deletes the stored chains of the tokens
  that it had created. The node accepts blocks that create a token and also make a match, and when the first
  match is in such a block, every restart loses the chain of the token (`Restarted.MixedNeverRecovers`;
  `Restarted.RestartMixedNode` is such a node). Where blocks that create tokens do nothing else, nothing is lost
  (`Restarted.AloneRecovers`).
* A block that cancels an open order is refused. Unless one of its matches names the order, in which case taking
  the block back ends in a panic, the cancellation is exactly what is left of it (`Multichain.Blockchains.AddBlock`,
  `Admission.CancelPastUndo`). A node in which that has happened is never recovered by a restart
  (`Restarted.StrayedNeverRecovers`; `Market.RefuseCancellation` is such a node).
* A match may name its two symbols the wrong way round and is still valid. No book finds it
  (`Market.SwappedMatchIsValid`), and a matcher that agrees with the ledger panics when it is mined
  (`Market.MineSwapped`).
* The rollback of an order takes it out of its book without marking the book for the next search. If a match that
  was found names the order, another bid or ask that crosses may be passed over until the book changes for another
  reason (`MinedTransactions.MissCrossing`). What was found still answers for the books exactly if the book is marked
  already or no match names the order (`Matchers.Matcher.AnsweredWithout`); every other change marks its book, and then
  nothing that crosses is ever missed (`MinedTransactions.mineAndSearch`, `MinedTransactions.NoneCrosses`).
* Exactly the keys whose hash does not start with a zero byte have an address that is sure to be valid
  (`Base58.AddressValidIff`). Base58 coding loses all leading zero bytes but one (`Base58.RoundTripIff`).

## Modelling choices

* Prices are exact ratios. A fill is integer division rounded down or up, as the program's comments intend;
  prices in the queues are real quotients, with x/0 and 0/0 as the values that floating point gives them.
* A Go map that lacks a key reads as zero. Maps of funds are compared in the form without zero entries, since
  an undo leaves such entries behind.
* A panic is an outcome. The rollback of a match whose leftover was claimed is the outcome `Overdrawn`; the
  program carries on there, and the model stops.
* `restoreFromDatabase` need not end. The model bounds the number of its passes; what it promises holds for
  every bound, and a node that can be recovered is recovered within one pass more than it has blocks.
* Hashes are ideal: a block's hash is its contents. The Base58 checksum and key hash are parameters.
* The rules that the program relies on and does not check are named predicates: `Ledgers.WellFormed` (token
  transactions are on token chains, no token is called MATCH, a match trades two different tokens) and
  `Agreement.Proper` (orders have positive amounts, and a match names the symbols in the order of the book and
  fills orders that want each other's token).

## Model

| member | source | states |
|---|---|---|
| Fills.FillFits | orderbook.go:179-198 | Neither subtraction of a fill can underflow, for any two orders, whichever is the smaller. |
| Fills.FillPriced | consensus_state.go:266-314 | The seller is offered no more than the buyer pays exactly when the bid reaches the ask, in both rounding branches. |
| Fills.FillProgress | consensus_state.go:316-345 | A fill of positive orders depletes at least one; a depleted buy order has nothing left over; an order left open keeps both amounts positive. |
| Fills.FillExact | consensus_state.go:266-314 | For positive orders, a transfer, loss and gain are those of the fill if and only if the transfer is the smaller of what is wanted and what is sold, the loss is the most that the bid affords for it, and the gain the least that contents the ask. |
| TokenLedger.WorthOfTx | consensus_state.go:49-217 | Claims, transfers, freezes, orders and releases leave what a token is worth as it was, but for freezes until a height already reached. |
| TokenLaws.UndoTx | consensus_state.go:98-230 | The rollback of each token-chain transaction, right after it, restores every map of the token, wrap-around included. |
| TokenLaws.UndoOfSide | consensus_state.go:417-453 | Undoing one side of a match restores the token, whether the order was closed with a leftover or only reduced. |
| TokenLaws.WorthOfSide | consensus_state.go:316-345 | One side of a match loses for the token only what neither party is paid. |
| TokenLaws.TxSideCommute | consensus_state.go:49-345 | A token transaction and one side of a match, both possible, can follow each other in either order with the same outcome. |
| TokenLaws.TxBeforeSide | consensus_state.go:106-128 | A transaction that came after a match was possible before it, unless it claimed what the match paid. |
| Ledgers.NeverOverflows | consensus_state.go:275-309 | The validator's overflow test can never be true. |
| Ledgers.MatchSidesFit | consensus_state.go:261-345 | An accepted match pays out no more, on either token, than the two orders held. |
| Ledgers.AcceptsIff | consensus_state.go:261-314 | The checks of the amounts accept exactly the exact fill of the two orders, when the seller is offered no more than the buyer gives up. |
| Ledgers.ValidMatchIff | consensus_state.go:232-314 | A match of positive orders is valid if and only if its id is new, both orders are open, its amounts are exact and the bid reaches the ask. |
| Ledgers.StepInv | consensus_state.go:49-352 | Every accepted transaction keeps orders filed under their own ids, open and deleted ids disjoint, a count for each, and the supply unexceeded. |
| Ledgers.MatchJustMade | consensus_state.go:376-415 | Right after a match its rollback finds both orders and both payments, so it cannot panic. |
| Ledgers.UndoMatchStep | consensus_state.go:376-453 | The cascade test and the rollback of a match together are the inverse of the match. |
| Ledgers.UndoStep | blockchains.go:666-702 | For every transaction type, adding and then rolling back is the identity on ledger and heights. |
| Commutation.StepsCommute | consensus_state.go:49-352 | Two possible transactions of different chains never disable each other and commute. |
| Commutation.MatchCountsUp | consensus_state.go:316-345 | A match raises the update count of the orders that it names by one and of no others. |
| Commutation.StepBefore | consensus_state.go:49-352 | If a transaction was possible after one of another chain that is removable in the end, it was possible before it. |
| Commutation.TrackedStep | consensus_state.go:316-453 | Steps of other chains never lose sight of a placed or matched order and never make a step removable that was not. |
| Commutation.RunInv | consensus_state.go:49-352 | The ledger invariant holds over every run. |
| Commutation.MoveToEnd | blockchains.go:570-625 | A removable step can be moved behind any number of later steps of other chains, which were possible without it. |
| Commutation.UndoFromBehind | blockchains.go:570-625 | Undoing a removable step out of global order gives the state that the steps after it lead to by themselves. |
| Schedules.BlocksCommute | blockchains.go:713-740 | A replayable block is never disabled by a block of another chain, and the two commute. |
| Schedules.ReplayFirst | blockchains.go:708-749 | Any block that can be replayed now can be replayed first without spoiling a schedule that completes. |
| Schedules.Confluence | blockchains.go:704-750 | All completed replays end in the same state after the same number of blocks, whatever the map iteration order. |
| Timelines.TakeOut | blockchains.go:570-625 | Undoing the last transaction of a chain, wherever it lies in the history, gives the replay of the history without it. |
| Timelines.TakeOutIff | consensus_state.go:79-104 | The history can be replayed without a chain's last transaction if and only if the transaction is removable: count zero, or payments and leftovers unclaimed. |
| Timelines.PopOp | blockchains.go:584-623 | Taking a chain's last transaction out leaves the blocks of every other chain alone. |
| Determinism.TimelineCompletes | blockchains.go:704-750 | Any history is a schedule by which a restart can replay its blocks. |
| Determinism.BlocksDetermineWorld | blockchains.go:87-151 | Two histories that left the same blocks on every chain left the same ledger, whatever was added and rolled back in between. |
| OrderHistory.FillAtPrice | orderbook.go:183-194 | Each fill gives up at most what the residual price allows for what it brings, in spite of rounding. |
| OrderHistory.LedgerAgrees | consensus_state.go:316-345 | Over every run the update count is the number of matches naming the order and its amounts are the original less the fills. |
| OrderHistory.LimitPriceHolds | consensus_state.go:261-345 | Over its whole life an order never gives more than its limit price allows for what it received. |
| OrderHistory.UntouchedOrder | consensus_state.go:79-104 | An order whose count is zero is open exactly as placed, so that rolling it back refunds what it took. |
| Conservation.SupplyConserved | consensus_state.go:49-352 | Over every run, balances, claims, escrow, funds still frozen, funds frozen too late and match surplus add up to the supply. |
| Conservation.NoCreditWraps | consensus_state.go:106-195 | Balance, claim, escrow and a pending freeze of any address together never exceed the supply. |
| Freezes.LateRecord | consensus_state.go:165-217 | What is on record for freezes that all came too late is no more than the audit counts as stuck, over every run. |
| Freezes.FullRecordRuns | consensus_state.go:165-217 | A run from the empty ledger to any height, in which everything is frozen until a height on the way and released there. |
| Freezes.SafeOnRunsIff | consensus_state.go:165-195 | No freeze until u wraps after any run to height h, if and only if not 1 <= u <= h. |
| Freezes.SafeOnNodesIff | blockchains.go:119-147 | No freeze until u wraps in the next block of any node with a chain of height h, if and only if not 2 <= u <= h. |
| Freezes.NodesHaveHistories | blockchains.go:83-151 | A node whose token chains begin with their first blocks is among those that the previous statement is about. |
| Freezes.RestartForgetsRelease | blockchains.go:704-750 | A node history in which a freeze falls due: the funds are back in the live ledger, and still missing after the replay of its blocks. |
| Market.MarketReached | block.go:179-226 | Two tokens are created, claimed and offered for each other by a run from the empty ledger. |
| Market.SpentLeftoverWraps | consensus_state.go:376-453 | After a run from the empty ledger that ends with a match and the claim of what it left over, the rollback of the match passes its checks and the claim wraps below zero. |
| Market.SpentPaymentPanics | consensus_state.go:398-415 | After a run from the empty ledger that ends with a match and the buyer's claim of its payment, the rollback of the match panics, although the seller's payment is still there. |
| Market.SwappedMatchIsValid | consensus_state.go:232-314 | After a run from the empty ledger the validator accepts a match with its two symbols exchanged, and no book that agrees with the ledger finds it. |
| Market.MineSwapped | blockchains.go:652-661 | A matcher that agrees with that ledger panics at the match. |
| Market.OpenNext | blockchains.go:87-151 | A node takes in each block of the market after the ones before it. |
| Market.RefuseCancellation | blockchains.go:119-147 | A node built from nothing refuses a block that cancels an order, and is left with the order cancelled. |
| Market.MixedIsTaken | blockchains.go:536-568 | A block that creates a token and makes a match is acceptable. |
| Market.MixedNode | blockchains.go:536-568 | A node built from nothing holds such a block, and the chain of the token. |
| Conservation.CancelConserves | consensus_state.go:455-472 | A cancellation loses nothing of the order's escrow. |
| Effects.TransferMoves | consensus_state.go:130-154 | Accepted exactly when the id is new and the sender has the amount; then the sender has that much less, the receiver that much more, nobody else is touched and the id is used; a transfer to oneself moves nothing. |
| Effects.ClaimMoves | consensus_state.go:106-121 | Accepted exactly when that much can be claimed; then the amount moves from claim to balance of its address, without wrapping, and nothing else changes. |
| Effects.OrderTakes | consensus_state.go:49-77 | Accepted exactly when the id is neither open nor closed and the funds suffice; the order is open as it is with count zero, and its owner has less by what it sells. |
| Effects.FreezeTakes | consensus_state.go:165-195 | Accepted exactly when the id is new and the funds suffice; the amount leaves the balance and, for a height ahead, is added to the record of that height and address and to no other. |
| Effects.ReleaseGives | consensus_state.go:206-217 | The block that reaches a height gives every address exactly what is on record for it at that height, without wrapping. |
| Effects.MatchSettles | consensus_state.go:316-345 | An accepted match reduces both orders by what they gave and got, closes exactly those that want nothing more, pays seller, buyer and leftovers by exact amounts without wrapping, counts both orders once, and touches no other token. |
| Effects.RollbackRetakes | consensus_state.go:376-453 | When the rollback of a match goes through, both payees held what they were paid and can claim exactly that much less, leftovers apart; with leftovers, this is so for every address whose claim is not overdrawn. |
| Effects.CancelGives | consensus_state.go:455-472 | A cancellation gives the owner exactly what was still to be sold, closes that order only and counts it. |
| Effects.CancelledForGood | consensus_state.go:455-472 | After any run and a cancellation, the placing of that order can no longer be rolled back, so that its escrow cannot be refunded twice. |
| Effects.RefusedFromThenOn | consensus_state.go:130-154 | A transfer, freeze, order or match id that was accepted is refused in every later state of any run. |
| Effects.FreeAgain | consensus_state.go:156-163 | Once the transaction is rolled back, exactly what was accepted before it is accepted again, the transaction itself included. |
| Effects.OnceOnly | consensus_state.go:130-154 | No run from the empty ledger accepts the same identifier twice for the same use. |
| Cascade.CountIsNames | consensus_state.go:79-96 | The count of an order is the number of matches on the MATCH chain that name it. |
| Cascade.LastNames | consensus_state.go:79-96 | If a shorter chain names the order no more, the block just dropped is one that did. |
| Grouping.Exchange | blockchains.go:493-534 | Two neighbouring transactions in the wrong type order can be exchanged without changing acceptance or outcome. |
| Grouping.GroupingKeepsOutcome | block.go:226-262 | Transactions accepted one by one in any arrival order are accepted grouped by type, with the same token state. |
| Grouping.MineTokenBlock | block.go:226-262 | Adding transactions one by one builds the block of exactly those transactions. |
| Grouping.BlockIsGrouped | blockchains.go:493-534 | Processing a mined block runs the miner's transactions grouped by type. |
| Grouping.ReplayedAsMined | blockchains.go:493-534 | A peer that replays a mined token block accepts it and reaches the miner's ledger. |
| Grouping.BlockMayAcceptMore | blockchains.go:493-534 | The converse is not promised: a block can be valid though its transactions could not have arrived in that order. |
| TokenGenesis.TakeSteps | consensus_state.go:518-539 | Creating a token and adding its first block succeeds exactly when the name is free. |
| TokenGenesis.SlipIn | blockchains.go:87-151 | A transaction accepted after harmless ones of other chains would have been accepted before them, with the same outcome. |
| TokenGenesis.TakingIsReplaying | blockchains.go:536-568 | Adding a block that creates tokens is replaying it and then the tokens' first blocks. |
| Admission.RefusedAt | blockchains.go:493-568 | Where a block is refused is determined, and its refusal leaves a trace exactly when a cancellation was reached. |
| Admission.CreatedSupply | blockchains.go:536-568 | When a token has been created and its first block added, its creator has the whole supply as balance, and nothing else of it is with anybody. |
| Admission.BlockCommitted | blockchains.go:119-147 | The state after an added block is the replay of the history extended by that block. |
| Admission.UndoTaken | blockchains.go:786-791 | A transaction just added, the creation of a token with its chain included, can be taken back, and that restores the ledger. |
| Admission.CancelPastMatch | consensus_state.go:354-453 | After a cancellation, undoing an earlier match panics exactly if it names the order; otherwise cancelling and undoing can be exchanged. |
| Admission.CancelPastUndo | blockchains.go:786-796 | The same for any transaction that a refused block had made before the cancellation. |
| Admission.RefusalIs | blockchains.go:493-568 | A refusal changes nothing, or it is a cancellation on the MATCH chain of an order that is open. |
| Survival.Follow | blockchains.go:704-750 | A schedule can be followed along any history of the first blocks of the chains; what is left is a schedule for the rest. |
| Survival.Continued | blockchains.go:570-625 | A history of the first blocks of every chain can be continued with all the others, to the same ledger as any history of all. |
| Survival.MatchBlockLast | consensus_state.go:79-96 | When all that stays has a history without the last MATCH block, there is a history in which that block comes last, also with an order that it names still in place. |
| Survival.UndoLast | consensus_state.go:376-453 | A transaction that comes last in some history can be taken back, and that leads back. |
| Survival.LastOrderKnown | consensus_state.go:79-85 | The order that a token chain placed last has a count, so that its rollback does not panic for the lack of one. |
| ConsensusStates.ConsensusState.constructor | consensus_state.go:40-47 | A new state is the empty ledger with the MATCH chain. |
| ConsensusStates.ConsensusState.AddOrder | consensus_state.go:49-77 | Accepted exactly when funds suffice and the id is new; then the escrow is taken and nothing else of any token changes. |
| ConsensusStates.ConsensusState.RollbackOrder | consensus_state.go:98-104 | The state becomes the value-level rollback of that order. |
| ConsensusStates.ConsensusState.AddClaimFunds | consensus_state.go:106-121 | Accepted exactly when that much is unclaimed; the claim moves to the balance. |
| ConsensusStates.ConsensusState.RollbackClaimFunds | consensus_state.go:123-128 | The state becomes the value-level rollback of that claim. |
| ConsensusStates.ConsensusState.AddTransfer | consensus_state.go:130-154 | Accepted exactly when the id is unused and funds suffice; the state becomes the one that `Effects.TransferMoves` describes, also for a transfer to oneself. |
| ConsensusStates.ConsensusState.RollbackTransfer | consensus_state.go:156-163 | The state becomes the value-level rollback of that transfer. |
| ConsensusStates.ConsensusState.AddFreeze | consensus_state.go:165-195 | Accepted exactly when the id is unused and funds suffice; the funds are recorded under height and address. |
| ConsensusStates.ConsensusState.RollbackFreeze | consensus_state.go:197-204 | The state becomes the value-level rollback of that freeze. |
| ConsensusStates.ConsensusState.ApplyUnfreezesForBlock | consensus_state.go:206-217 | The loop over the frozen funds, in any order, releases each of the height exactly once. |
| ConsensusStates.ConsensusState.RollbackUnfreezesForBlock | consensus_state.go:219-230 | The loop over the frozen funds takes each release of the height back exactly once. |
| ConsensusStates.ConsensusState.CheckMatch | consensus_state.go:232-314 | The checks pass exactly when both orders are open, the id is unused, and the match is the fill of one by the other; for positive orders, only exact amounts pass. |
| ConsensusStates.ConsensusState.AddMatch | consensus_state.go:232-352 | All or nothing: an accepted match applies both sides; a refused one changes nothing; two tokens that are one included. |
| ConsensusStates.ConsensusState.GetBuySellOrdersForMatch | consensus_state.go:354-374 | Finds the orders that a match names, closed or open, exactly when both exist. |
| ConsensusStates.ConsensusState.RollbackUntilRollbackMatchSucceeds | consensus_state.go:376-415 | Goes through if and only if both orders are known, the seller can claim what it was paid and the buyer can claim what it was paid; then it takes the seller's gain back. |
| ConsensusStates.ConsensusState.RollbackMatch | consensus_state.go:417-453 | Restores both orders, takes leftovers back and uncounts both. |
| ConsensusStates.RollbackInSteps | consensus_state.go:376-453 | The two methods together are the value-level rollback of the match. |
| ConsensusStates.ConsensusState.AddCancelOrder | consensus_state.go:455-472 | Effective exactly when the order is open; then its escrow is claimable and the order is gone. |
| ConsensusStates.ConsensusState.AddCreateToken | consensus_state.go:518-539 | Accepted exactly when the name is new; then one fresh token exists whose creator can claim the supply. |
| ConsensusStates.ConsensusState.RollbackCreateToken | consensus_state.go:541-546 | Removes the token and its registration and nothing else. |
| Chains.SameHashSamePrefix | blockchain.go:55-80 | Two chains with a block hash in common agree up to that block and have it at the same height. |
| Chains.Blockchain.constructor | blockchain.go:32-53 | Opening a bucket gives tip and hashes of the stored list; the height stays zero. |
| Chains.Blockchain.AddBlock | blockchain.go:55-80 | The list grows by the block; bucket, last hash, cached tip, cached hashes and height still describe one list. |
| Chains.Blockchain.RemoveLastBlock | blockchain.go:82-112 | The list loses its last block, whose data is returned, and all five descriptions follow. |
| Chains.Blockchain.getBlockhashes | blockchain.go:191-202 | Walking back from the tip yields the hashes of the whole list, newest first. |
| Chains.Blockchain.GetBlock | blockchain.go:204-216 | A block is found exactly when some block of the chain has that hash. |
| Chains.BlockchainIterator.Prev | blockchain.go:139-160 | Delivers the blocks from newest to oldest, and stops exactly at the start. |
| Chains.BlockchainForwardIterator.Next | blockchain.go:162-185 | Delivers the blocks from oldest to newest, and stops exactly at the end. |
| Chains.BlockchainForwardIterator.Undo | blockchain.go:187-189 | The last delivered block will be delivered again. |
| GenericTransactions.MakeTransaction | blockchains.go:627-664 | Reports success exactly when the ledger accepts; a cancellation acts and is reported as a failure. |
| GenericTransactions.TakeMatchBack | consensus_state.go:376-453 | Panics if and only if an order is unknown, or the seller can claim less than its gain, or the buyer less than the transferred amount; otherwise the match is undone in both tokens. |
| GenericTransactions.TakeBack | blockchains.go:666-702 | Undoes a transaction of any type, without a panic when it can be undone. |
| Multichain.Blockchains.constructor | blockchains.go:32-81 | A new node mirrors its history: its chains are MATCH and NATIVE, and the creator has the hundred million of the native token, and nobody else any. |
| Multichain.Blockchains.rollbackMatchToHeight | blockchains.go:598-625 | Cuts the MATCH chain at the height, out of order with the token chains; it goes through only if no dropped block created a token, and then always if there is a history of what stays. |
| Multichain.Blockchains.rollbackTokenToHeight | blockchains.go:570-596 | Cuts a token chain at the height, and the MATCH chain before the first match that names a dropped order; it goes through whenever there is a history of what stays and no dropped MATCH block created a token. |
| Multichain.Blockchains.RollbackUntilRollbackOrderSucceeds | consensus_state.go:79-96 | The cascade stops just before the earliest MATCH block that names the order, and gets there, without a panic, whenever there is a history of what stays in which the order comes last and no dropped block created a token. |
| Multichain.Blockchains.RollbackToHeight | blockchains.go:153-185 | Goes through if and only if no dropped MATCH block created a token and what stays has a history; then the state is the replay of exactly the blocks that the chains still hold, and how much each chain holds is determined. |
| Multichain.Blockchains.AddTokenChain | blockchains.go:187-198 | The chain of a new token is added with its first block, and the first claim goes through. |
| Multichain.Blockchains.addTokenData | blockchains.go:493-534 | Claims, transfers, freezes and orders are tried in this order until one is refused, and exactly the accepted ones are recorded. |
| Multichain.Blockchains.addMatchData | blockchains.go:536-568 | Creations, matches and cancellations are tried in this order until one is refused, and exactly the accepted ones are recorded. |
| Multichain.Blockchains.addGenericTransaction | blockchains.go:627-664 | Success exactly when the transaction is acceptable midway through the block, chain creation included. |
| Multichain.Blockchains.rollbackGenericTransaction | blockchains.go:666-702 | A transaction recorded by a failed block is undone; the cascade has nothing to do. |
| Multichain.Blockchains.undoTransactions | blockchains.go:786-796 | Reverse undo of the recorded transactions restores the state, depleted orders and created chains included; after a cancellation it panics exactly if a match named the order, and otherwise leaves exactly the cancellation. |
| Multichain.Blockchains.AddBlock | blockchains.go:83-151 | Added exactly when the block follows and all its transactions are acceptable; a refused block leaves state and chains as they were, or, exactly if it cancelled an open order first, ends in a panic or with that order cancelled. |
| Multichain.SameChainsSameState | blockchains.go:87-185 | Two nodes with the same chains have the same consensus state, however they came by them. |
| Recovery.CreateBlockReady | blockchains.go:704-750 | A stored block that only creates tokens can always be replayed at once. |
| Recovery.VisitElsewhere | blockchains.go:708-740 | A visit changes nothing of what is left of the other open chains, and opens chains only by replaying MATCH blocks. |
| Recovery.PassesLogged | blockchains.go:704-750 | Whatever the order of the visits, what is lost is out of store and stays lost, the rest is in store, and as long as nothing is lost the replay is the beginning of a schedule. |
| Recovery.ExecutionProgress | blockchains.go:704-750 | As long as nothing is lost, every pass replays a block until none can be. |
| Recovery.Remaining | blockchains.go:704-750 | If any schedule completes, what has been replayed in any order is the beginning of one that completes. |
| Recovery.LongEnough | blockchains.go:704-750 | A replay that loses nothing and has more passes than there are blocks ends where any schedule does. |
| Recovery.NothingLost | blockchains.go:704-750 | If blocks that create tokens do nothing else, no replay loses anything. |
| Recovery.FirstLossIsLost | blockchains.go:704-750 | What the first visit of the MATCH chain loses is lost in every execution. |
| Recovery.MixedBlockLoses | blockchains.go:704-750 | If the first MATCH block with a match creates tokens before it, their stored chains are lost in every execution. |
| Restart.OpenChain | blockchains.go:713-718 | Opening a stored chain and counting its hashes gives a chain in good order with the stored blocks. |
| Restart.RecoveringBlockchains.undoTransactions | blockchains.go:786-796 | Reverse undo restores the state; the tokens that were created are gone, and so is what is stored for them. |
| Restart.RecoveringBlockchains.replayBlock | blockchains.go:720-735 | A block is replayed in full, or the state is as it was and exactly the chains of the tokens that it had created are out of store. |
| Restart.RecoveringBlockchains.replayChain | blockchains.go:713-740 | A visit replays the chain as far as it goes, and takes a refused block back. |
| Restart.RecoveringBlockchains.replayPass | blockchains.go:708-748 | A pass visits every chain that was open when it began, in whatever order, and some of those opened on the way. |
| Restart.RecoveringBlockchains.restoreFromDatabase | blockchains.go:704-750 | State, chains and store are what its visits make of what was stored; it is done only if all open chains are replayed, and goes on only while a pass makes progress or something is left. |
| LiveRestart.NothingReleased | consensus_state.go:206-217 | A release finds nothing when no freeze of any funds is due. |
| LiveRestart.RestartAgrees | blockchains.go:704-750 | When no freeze fell due, the chains of a node have a completing replay and it ends in the ledger of the node's history. |
| Forgetting.HeldReplay | blockchains.go:704-750 | Whatever the order of a replay, what is held of a token ends up as its blocks say. |
| Forgetting.ForgottenIff | blockchains.go:119-147 | A run without its releases is possible and ends in the same ledger if and only if no freeze of any funds fell due. |
| Forgetting.RecoveredNoneDue | blockchains.go:704-750 | If any complete replay of a node's chains gives the ledger of its history, no freeze of any funds fell due. |
| Restarted.StorableNode | blockchains.go:119-147 | All that a node has stored can be replayed transaction by transaction. |
| Restarted.RecoveredIff | blockchains.go:704-750 | A restart gives the node its state and its chains back if and only if no freeze of any funds fell due and nothing was lost in the replay. |
| Restarted.AloneRecovers | blockchains.go:704-750 | Where blocks that create tokens do nothing else, every restart does so if and only if no freeze of any funds fell due. |
| Restarted.MixedNeverRecovers | blockchains.go:704-750 | Where the first MATCH block with a match also creates a token, no restart does so. |
| Restarted.StrayedNeverRecovers | blockchains.go:704-750 | No restart recovers a node in which an order was cancelled by a refused block. |
| Restarted.KnownReplay | blockchains.go:704-750 | After any complete replay every order that was placed is on file. |
| Restarted.RestartNode | blockchains.go:58-71 | Starting anew from what a node has stored, with any number of passes, ends as these statements require. |
| Restarted.RestartMixedNode | blockchains.go:704-750 | A node built from nothing in which no freeze fell due, and which no restart recovers. |
| Restarted.RestartStrayedNode | blockchains.go:704-750 | A node built from nothing that refused a cancelling block, and which no restart recovers. |
| Restarted.RestartMarket | blockchains.go:704-750 | A node built from nothing that a restart recovers. |
| Reconcile.CommonAt | node.go:576-580 | Comparing hashes at equal heights tells on which side of the fork a height lies. |
| Reconcile.FindFork | node.go:559-597 | The walk stops at the highest common block, and at a nil block exactly when there is none. |
| Reconcile.Download | node.go:604-623 | The chain follows the peer's, and why it stops is determined: at the end, at a block that was not sent, or at one that cannot be added. |
| Reconcile.reconcileChain | node.go:548-626 | Every exit and when it is taken: the errors that change nothing, a rollback that cannot go through, and the download from the ledger of what stays. |
| Heaps.HeapWithHole | orderqueue.go:82-86 | Any one price of a heap can change to anything and the rest stays in order, also across the gap. |
| Heaps.TopIsBest | orderqueue.go:52-59 | The first price of a heap is a best one. |
| OrderQueues.OrderQueue.Swap | orderqueue.go:156-160 | Two items change places and know it; the index stays a bijection. |
| OrderQueues.OrderQueue.Push | orderqueue.go:162-175 | Appends the item unless its id is there already, when nothing changes. |
| OrderQueues.OrderQueue.Pop | orderqueue.go:177-183 | Takes the last item away, from the list and from the index. |
| OrderQueues.OrderQueue.up | orderqueue.go:35-41 | Sifting up turns a heap with one rising item into a heap, and leaves an item without a price alone. |
| OrderQueues.OrderQueue.down | orderqueue.go:61-70 | Sifting down fills a hole, or reports that nothing moved and the item may have to rise. |
| OrderQueues.OrderQueue.Enq | orderqueue.go:35-41 | The queue gains exactly this order, in heap order unless its price is 0/0; a duplicate id changes nothing. |
| OrderQueues.OrderQueue.Deq | orderqueue.go:43-50 | Takes out a best-priced order, or reports an empty queue. |
| OrderQueues.OrderQueue.Peek | orderqueue.go:52-59 | A best-priced order with its cached price, exactly when there is one. |
| OrderQueues.OrderQueue.Remove | orderqueue.go:61-70 | The queue loses exactly this id and is a heap again, even if the item's price was x/0 or 0/0. |
| OrderQueues.OrderQueue.GetOrder | orderqueue.go:72-80 | Found exactly when the id is in the queue. |
| OrderQueues.OrderQueue.FixPrice | orderqueue.go:82-86 | After an order's amounts changed its cached price is right and heap order restored; no other price changes. |
| Orderbooks.CrossesByPrice | orderbook.go:164-177 | Comparing the two quotients tells exactly whether bid and ask cross. |
| Orderbooks.FittingFill | orderbook.go:179-206 | A match found in a book takes no more than there is and uses up at least one order. |
| Orderbooks.FittingIff | orderbook.go:179-206 | A match fits a book if and only if its orders are live there, its amounts are the exact fill of them and the bid reaches the ask. |
| Orderbooks.UnfilledBook | orderbook.go:119-153 | Taking a fitting match back gives the book that it was filled from. |
| Orderbooks.FewerAfterFill | orderbook.go:208-237 | Every match leaves fewer live orders, of at least two. |
| Orderbooks.Orderbook.constructor | orderbook.go:25-33 | A new book is empty and in order, under the greater symbol first. |
| Orderbooks.Orderbook.findMatchUnlocked | orderbook.go:164-206 | A match of a bid that no live bid beats and an ask that no live ask beats, with the exact fill; nothing is found only if no bid crosses any ask. |
| Orderbooks.Orderbook.applyMatchUnlocked | orderbook.go:74-108 | Both orders are filled and used-up ones leave their queues; a panic exactly when one is missing. |
| Orderbooks.Orderbook.unapplyMatchUnlocked | orderbook.go:119-153 | Both orders get back what they gave, and return to their queues if they had left, whichever order is handed first. |
| Orderbooks.Orderbook.FindAllMatches | orderbook.go:208-237 | Complete, each match with price priority in the book that the ones before leave, terminating with fewer matches than orders, and afterwards the book has the same orders with the same amounts in order. |
| Orderbooks.Orderbook.Add | orderbook.go:35-49 | The order joins its side, unless its id is there; the other side stays. |
| Orderbooks.Orderbook.Cancel | orderbook.go:51-63 | The order leaves its side; the other side stays. |
| Orderbooks.Orderbook.ApplyMatch | orderbook.go:65-72 | A mined match fills its two orders, used-up ones are gone, and no other order changes. |
| Orderbooks.Orderbook.UnapplyMatch | orderbook.go:110-117 | Both orders of a match are back with the amounts from before it, used-up ones from the copies handed along. |
| Orderbooks.SameBook | orderbook.go:257-262 | Whichever symbol is named first, it is the same book. |
| Agreement.FittingIsValid | consensus_state.go:232-314 | A match that fits the book implied by the ledger is accepted by the independent validator. |
| Agreement.MatchOnBook | blockchains.go:652-661 | A match changes the ledger's open orders exactly as it changes the book. |
| Agreement.FinderRefinesValidator | orderbook.go:208-237 | All matches of one book, with fresh distinct ids, are accepted by the ledger in sequence. |
| Agreement.AgreementKept | blockchains.go:652-661 | Whatever transaction the ledger accepts, the book it implies changes as the matcher's book is told to. |
| Agreement.OrderOffBook | blockchains.go:692-695 | The rollback of an order takes it out of the implied book. |
| Agreement.MatchOffBook | blockchains.go:692-697 | The rollback of a match puts both orders back into the implied book with their former amounts. |
| Findings.OtherBooksStay | matcher.go:76-94 | The matches of one book leave what the ledger implies for every other book as it was. |
| Findings.AllFindingsAccepted | matcher.go:76-94 | The matches of any number of books, taken book by book in any order, are accepted in sequence. |
| Matchers.Matcher.addSymbol | matcher.go:111-122 | A new symbol gets one empty book with every known symbol; no existing book or order changes. |
| Matchers.Matcher.getOrderbook | matcher.go:124-134 | The one book of the two symbols, in either order, made if need be. |
| Matchers.CompleteWithout | orderbook.go:51-63 | When an order leaves a book, the complete finding of the book stays complete if and only if none of its matches names the order. |
| Matchers.Matcher.AddOrder | matcher.go:27-33 | The order joins the book of its two tokens on the right side, and that book, and no other, is marked for the next search; all other books stay. |
| Matchers.Matcher.RemoveOrder | matcher.go:39-45 | The order leaves the book of its two tokens, no mark changes; all other books stay. |
| Matchers.Matcher.AddMatch | matcher.go:47-53 | The match fills its two orders in their book, which is marked; a panic exactly when one is missing; all other books stay. |
| Matchers.Matcher.RemoveMatch | matcher.go:55-61 | Both orders are back in their book with the amounts from before the match, and the book is marked; all other books stay. |
| Matchers.Matcher.StillAnswered | orderbook.go:35-49 | As long as every change marks its book, what was found before leaves nothing that crosses in any book that is not marked. |
| Matchers.Matcher.AnsweredWithout | orderbook.go:51-63 | The removal of an order, which marks no book, keeps that if and only if the book is marked already or none of the matches that were found names the order. |
| Matchers.Matcher.FindAllMatches | matcher.go:76-94 | One complete finding, with price priority, for exactly the books that were dirty, none dirty afterwards, and every book with the orders it had. |
| Matchers.Matcher.AnsweredAgain | matcher.go:76-94 | After a search, what it found and what was found before leave nothing that crosses in any book at all. |
| MinedTransactions.addMinedTransaction | blockchains.go:627-664 | A mined transaction is made exactly if the ledger accepts it; books and ledger agree after it, the book it concerns is marked, and every unmarked book is answered for. |
| MinedTransactions.rollbackMinedTransaction | blockchains.go:666-702 | Taking back a transaction on which nothing depends, however far back among those of other chains, gives the ledger of the others alone and leaves the books in agreement with it; for a match the book is marked, and for an order the books stay answered for if and only if the book is marked or no match that was found names the order. |
| MinedTransactions.addMinedTransactions | blockchains.go:627-664 | A mined block, as far as it is accepted: books agree with the ledger, every book it concerns is marked, and every unmarked book is answered for. |
| MinedTransactions.mineAndSearch | matcher.go:76-94 | The search after a mined block has a finding for every book that the block concerns; then no book is marked, and what was found now or before leaves nothing that crosses in any book at all. |
| MinedTransactions.FoundMatchesAccepted | matcher.go:76-104 | What the search of an agreeing matcher returns is accepted by the ledger, and then no bid crosses an ask in the books searched. |
| MinedTransactions.NoneCrosses | matcher.go:76-94 | When no book is marked, the ledger accepts all the matches that were found, book by book, and after them no bid crosses an ask in any book at all. |
| MinedTransactions.NoneCrossesIff | matcher.go:76-94 | After the matches of one search alone, no bid crosses an ask in any book at all if and only if none did in the books that the search passed over. |
| MinedTransactions.MissCrossing | orderbook.go:51-63 | Three orders, a search, the removal of the matched bid and a second search: the second finds nothing, although the other bid crosses the ask. |
| Base58.NumeralValue | wallet.go:110-135 | The digits by repeated division are a numeral of the number without leading zeros. |
| Base58.AlphabetIs | wallet.go:107 | The alphabet is exactly the digits but zero, the capitals but I and O and the small letters but l, each at its rank in that order. |
| Base58.EncodedSymbols | wallet.go:110-135 | Every symbol of an encoding is of the alphabet, and the ranks of the symbols are a numeral in base 58 of the bytes. |
| Base58.DecodedSymbols | wallet.go:137-154 | The decoded bytes are a numeral in base 256 of the ranks of the symbols. |
| Base58.OutsideSymbol | wallet.go:137-154 | A symbol outside the alphabet decodes as the program has it, to the byte one. |
| Base58.DecodedEncoding | wallet.go:110-154 | What decoding an encoding gives: the bytes without leading zeros, and one zero if there were any. |
| Base58.RoundTripIff | wallet.go:110-154 | Decoding the encoding returns the input if and only if it has at most one leading zero byte. |
| Base58.AddressFits | wallet.go:63-80 | A payload of 25 bytes with version 0 never needs more than 34 symbols. |
| Base58.AddressIsValid | wallet.go:255-265 | The address of a key whose hash does not start with zero passes validation and fits its field. |
| Base58.AddressHolds | wallet.go:63-80 | An address decodes to version, key hash and checksum, in this order, when the hash does not start with zero. |
| Base58.ValidMeans | wallet.go:255-265 | An address is valid exactly if the last four decoded bytes are the checksum of the others. |
| Base58.AddressValidIff | wallet.go:255-265 | The address is valid whatever the checksum function if and only if the key hash does not start with a zero byte. |
| Base58.ReverseBytes | wallet.go:156-160 | The array holds the old contents backwards. |
| Base58.Base58Encode | wallet.go:110-135 | The loop over quotients, the reversal and the copy give the encoding, filled up with zero bytes. |
| Base58.Base58Decode | wallet.go:137-154 | The loop over symbols gives the decoding, symbols outside the alphabet counted as the program counts them. |

## Left out

- Networking, RPC, the command line, the web server, charts, logs and reports: input and output only.
- Signatures, proof of work and mining success: they depend on ECDSA and hashing and are no part of any of the transitions.
- BoltDB and gob: a bucket is a map from hash to block and the last hash.
- Locks, goroutines, the mempool, `StartMining` and `ApplyLoop`: steps are sequential and the mempool is empty. Of the mempool only the arrival order of transactions is modelled (`Grouping`).
- IEEE rounding of `float64` prices and products: exact ratios instead; the division of a zero amount by zero in a fill is taken as 0.
- `orderUpdatesCount` is an integer without 32-bit wrap-around.
- `AddBlocks` with several blocks at once: the program calls it with one block only, and with several a refusal would not take back the releases of the earlier ones.
- The rollback of cancellations (`consensus_state.go:490-516`): it looks for the cancelled order in a map that the cancellation does not put it in; `AddBlock` never accepts a block with a cancellation, so no such block is ever rolled back.
- `RollbackToHeight` over a MATCH block that created a token ends as `TokenRemoved`: the program would delete a chain that may hold blocks of its own. `AddBlock` does undo creations of a block that is refused.
- The token-chain rollbacks after the panics in `RollbackUntilRollbackMatchSucceeds` (`consensus_state.go:391-397`, `consensus_state.go:408-414`): dead code after the panic, and otherwise reached only for a payment of zero that has no entry in the map, which no match of positive orders makes.
- Multichain.Blockchains.rollbackGenericTransaction: does not call the cascade from an order; within a refused block the count of a just placed order is proved to be zero, so the cascade would do nothing. Calls to the matcher are not made here.
- Multichain.Blockchains.addGenericTransaction: calls to the matcher are not made here; `MinedTransactions` makes them beside single transactions.
- Multichain.Blockchains.AddBlock: blocks with a match of a token with itself or with a token called MATCH are excluded; `ConsensusStates.ConsensusState.AddMatch` covers such matches by themselves. A node that has refused a cancelling block, or panicked, is not followed further.
- ConsensusStates.ConsensusState.RollbackUntilRollbackMatchSucceeds: matches of a token with itself are excluded.
- ConsensusStates.ConsensusState.RollbackMatch: matches of a token with itself are excluded.
- GenericTransactions.TakeMatchBack: matches of a token with itself are excluded.
- Chains.Blockchain.AddBlock: the block names the last one, which the program checks before it calls this, and carries its own hash, which it does not check.
- Restart.RecoveringBlockchains.restoreFromDatabase: the number of passes is bounded; the height of a chain is counted when it is opened rather than at its first visit; stored blocks fit their chains and cancel nothing, as `Restarted.StorableNode` proves of every node. A recovering node is a class of its own, since its chains are not yet in step with the state.
- Restarted.RecoveredIff: whether something is lost depends on the order in which the chains come up. `Recovery.NothingLost` and `Recovery.MixedBlockLoses` give conditions on the stored blocks under which no order, or every order, loses something; between them it is stated of each execution.
- Matchers.Matcher.FindAllMatches: returns the matches instead of queueing them in the mempool; the simulating mode that applies each at once is not modelled.
- Orderbooks.Orderbook.applyMatchUnlocked: a match takes no more than its orders have and leaves no order half empty, as `MinedTransactions` proves of the matches that the ledger accepts.
- Orderbooks.Orderbook.ApplyMatch: the same.
- Orderbooks.Orderbook.unapplyMatchUnlocked: the amounts that are given back are positive together and fit 64 bits, as `MinedTransactions` proves of matches that were made.
- Orderbooks.Orderbook.Add: orders with a zero amount, for which the price is x/0 or 0/0, are excluded; `OrderQueues` covers them.
- Matchers.Matcher.AddMatch: makes the assumption of `Orderbooks.Orderbook.applyMatchUnlocked`.
- Matchers.Matcher.RemoveMatch: the copies of the orders are those of the ledger, as `MinedTransactions` proves of its calls.
- Orderbooks.Orderbook.findMatchUnlocked: the random id of a match is a constant here; theorems about validity take any fresh distinct ids.
- Reconcile.reconcileChain: the peer answers a request for one of its blocks with that block or not at all, and the hashes and height it sent describe one linked list.
- Fills.FillProgress: orders are assumed to have positive amounts, which the program does not check.
- Agreement.AgreementKept: orders are assumed positive and matches to name their symbols in the order of the book, which the program does not check.
- MinedTransactions.rollbackMinedTransaction: assumes positive orders, as above, and a transaction on which nothing depends; the cascade that removes what does depend on it is in `Multichain`.
- MinedTransactions.addMinedTransaction: makes the same assumptions as `Agreement.AgreementKept`; a cancellation is excluded, since the matcher is not told of it.
- MinedTransactions.addMinedTransactions: the transactions of a block in their order, up to the first that is refused; hashes, heights and the undoing of a refused block are in `Multichain`.
- MinedTransactions.NoneCrosses: the matches are taken all together and with fresh distinct ids; which of them a miner puts into which block is not modelled.
- Base58.Base58Decode: an empty input, on which the program would index out of range, is excluded.
- Matchers.Matcher.AddOrder: zero amounts are excluded, and an order that wants the token it sells, for which the program dereferences a missing book, is excluded.
