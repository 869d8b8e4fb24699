# Block-template builder and miner bookkeeping, modelled in Dafny

This project models the block-template builder of the node's miner (`src/miner.cpp`) and the small pieces of bookkeeping around it.

`CreateNewBlock` (`BlockAssembly.CreateNewBlock`) works in these steps:

1. It pushes a dummy coinbase and placeholder fee and sigop entries.
2. It clamps the configured size limits (`BlockLimits`).
3. It turns every pool transaction into either a queued candidate or an orphan, a `COrphan` that waits for pending parents. Each orphan is listed in `mapDependers` under every parent it waits for (`Selection.BuildCandidates`).
4. It runs the greedy selection loop (`Selection.SelectTransactions`). Each round takes the best candidate off the queue under `TxPriorityCompare`. A candidate is skipped if it would reach the size or sigop ceiling, if it is a free transaction and the minimum size is already reached, if its inputs are missing, or if its scripts fail. The comparator switches once, for good, from priority to fee order. An accepted transaction goes into the three parallel vectors and updates the running totals. Orphans waiting for nothing else are then released into the queue.
5. It writes the coinbase, which pays the subsidy plus the fees, the template's fee vector, the masked random nonce and the header.

The bookkeeping around it:

- `UpdateTime`.
- `IncrementExtraNonce`, which keeps a per-previous-block counter and writes the height and extranonce into the coinbase scriptSig.
- The exit checks of the mining thread's search loop (`MiningLoop`).

Modules, one per file:

- `MinerTypes` (`types.dfy`): constants, the transaction record, fee rates and sums.
- `TxPriorityCompare` (`compare.dfy`): the comparator and the pop of a best entry.
- `BlockLimits` (`limits.dfy`): limit clamping.
- `CoinbaseScript` (`script.dfy`): the coinbase scriptSig encoding.
- `Selection` (`selection.dfy`): candidate building and the selection loop.
- `BlockAssembly` (`block.dfy`): the block, the template, `UpdateTime`, `CreateNewBlock` and `IncrementExtraNonce`.
- `MiningLoop` (`search.dfy`): the search loop and its exit checks.

How the source's entities are modelled:

- **Transactions.** A pool transaction is a record. It carries the values the selector reads from collaborators: size, legacy and P2SH sigop counts, fee, priority after `ComputePriority`, the `ApplyDeltas` deltas, and the verdicts of `IsFinalTx` and `ContextualCheckInputs`.
- **The coin view.** A set of transaction ids. `UpdateCoins` adds the id of the accepted transaction.
- **The heap.** A sequence. Popping removes an entry that no other entry beats under the current comparator, which is what `pop_heap` returns. `make_heap` after the switch keeps the contents.
- **Orphans and dependers.** `vOrphan` is a sequence of orphan records. `mapDependers` maps a parent id to the indices of its orphans.
- **The classes.** `CBlock` and `CBlockTemplate` are classes whose methods update their fields in place. The function-static `hashPrevBlock` of `IncrementExtraNonce` is a field of `ExtraNonceTracker`.

### Behaviour worth noting

- **Free transactions.** The code skips a candidate as free only in fee order, only when neither delta is positive, and only when its fee rate is below the relay minimum. Being low-fee past the minimum size is not enough on its own.
- **When the switch is checked.** The code tests the switch to fee order only for a candidate that passed the size, legacy-sigop and free checks. The entry of that round was already popped in the old order.
- **The nonce counter.** The search stops when the low 16 bits of the nonce reach `0xffff`, one step before they would wrap.
- **The extranonce reset.** The counter is set to 0 on a new previous block and then incremented, so the first coinbase carries 1.
- **The coinbase's size and sigops.** The block's size and sigop totals start at fixed reserves of 1000 and 100. They never count the coinbase's real size or sigops.
- **A found block.** With the tromp solver, a found block leaves only the loop over solutions and not the search loop.

## Model

| member | source | states |
|---|---|---|
| MinerTypes.FeeRatePerK | src/miner.cpp:899 | The fee rate per 1000 bytes is zero for a zero size. For a non-negative fee it is the truncated quotient: rate·size ≤ fee·1000 < (rate+1)·size. For a negative fee it is never positive. |
| MinerTypes.FeeRateMonotone | src/miner.cpp:899 | Paying more on the same size never lowers the fee rate. |
| TxPriorityCompare.LessIsLexicographic | src/miner.cpp:103-122 | Fee mode is the strict lexicographic order on (fee rate, priority). Priority mode is the strict lexicographic order on (priority, fee rate). |
| TxPriorityCompare.Less | src/miner.cpp:110-121 | The major key decides: in fee mode an entry with a lower fee rate is below, and an entry below never has the higher fee rate; in priority mode the same holds for priority. |
| TxPriorityCompare.Irreflexive | src/miner.cpp:110-121 | In both modes, no entry compares below itself. |
| TxPriorityCompare.Asymmetric | src/miner.cpp:110-121 | Two entries are never each below the other. |
| TxPriorityCompare.Transitive | src/miner.cpp:110-121 | The comparator is transitive in both modes. |
| TxPriorityCompare.TotalOnKeys | src/miner.cpp:110-121 | Two entries are ordered one way or the other exactly when their (priority, fee rate) keys differ. |
| TxPriorityCompare.FeeModeTieBreak | src/miner.cpp:112-115 | In fee mode, equal fee rates are ordered by priority; otherwise the lower fee rate sorts lower. |
| TxPriorityCompare.PriorityModeTieBreak | src/miner.cpp:116-119 | In priority mode, equal priorities are ordered by fee rate; otherwise the lower priority sorts lower. |
| TxPriorityCompare.BestKeyUnique | src/miner.cpp:917-924 | Any two entries that may come off the heap's front have the same priority and fee rate. |
| TxPriorityCompare.FindBest | src/miner.cpp:917-924 | Returns the index of a queue entry that no queued entry beats. |
| TxPriorityCompare.PopBest | src/miner.cpp:917-924 | pop_heap then pop_back. It returns a best entry and the queue with exactly that one occurrence removed, as a multiset. |
| BlockLimits.ToUInt32 | src/miner.cpp:798-809 | Storing a configured value in `unsigned int` keeps it when it is in range. Otherwise it reduces it modulo 2^32. |
| BlockLimits.ClampLimits | src/miner.cpp:798-810 | After clamping, 1000 ≤ max ≤ MAX_BLOCK_SIZE−1000, and the priority and minimum sizes are at most max. A value in range is kept; one out of range becomes the nearest bound. |
| BlockLimits.ClampIdempotent | src/miner.cpp:798-810 | Clamping limits that are already clamped changes nothing. |
| BlockLimits.NegativeMaxWraps | src/miner.cpp:798-800 | A configured maximum of −1 wraps to a large unsigned value and selects the largest allowed block. |
| CoinbaseScript.ScriptNumBytes | src/miner.cpp:1101 | CScriptNum bytes of a non-negative value are empty exactly for zero, and the sign bit of the last byte is clear. |
| CoinbaseScript.ScriptNumRoundTrip | src/miner.cpp:1101 | Decoding the CScriptNum bytes of a non-negative value gives the value back. |
| CoinbaseScript.ScriptNumLength | src/miner.cpp:1101 | A 32-bit value takes at most 5 CScriptNum bytes. |
| CoinbaseScript.PushData | src/miner.cpp:1101 | Pushing data shorter than 0x4c is its length byte followed by the data, and every push is longer than its data. |
| CoinbaseScript.PushInt | src/miner.cpp:1013 | `CScript() << n` is never empty, and it is a single opcode exactly when n is at most 16. |
| CoinbaseScript.ExtraNonceScriptSig | src/miner.cpp:1101 | The script starts with the height push and ends with the coinbase flags, with at least one byte for the extranonce between them. |
| CoinbaseScript.PushIntRoundTrip | src/miner.cpp:1013 | The integer pushed first by `CScript() << nHeight` is read back, whatever follows it, together with the length of the push. |
| CoinbaseScript.PushIntLength | src/miner.cpp:1013 | Pushing a 32-bit height takes between 1 and 6 bytes. |
| CoinbaseScript.ScriptSigsCarryHeight | src/miner.cpp:1099-1101 | Both the template's coinbase script and the one IncrementExtraNonce writes start with a push that reads back as the height. |
| CoinbaseScript.ExtraNonceScriptSigLength | src/miner.cpp:1101-1102 | For a 32-bit height and extranonce, the script is at most 12 bytes plus the flags. With at most 88 bytes of flags, it meets the 100-byte bound. |
| CoinbaseScript.PushNumRoundTrip | src/miner.cpp:1101 | `<< CScriptNum(n)` followed by anything reads back as n. |
| CoinbaseScript.ExtraNonceReadBack | src/miner.cpp:1101 | The extranonce is read back from the script right after the height push. |
| CoinbaseScript.ExtraNonceScriptsDiffer | src/miner.cpp:1101 | At one height, different 32-bit extranonces give different coinbase scripts. |
| Selection.InitialQueueMembers | src/miner.cpp:837-905 | A pool transaction is queued at once exactly when it is neither a coinbase nor non-final and has no input outside the coin view. It is queued with its modified priority and fee rate. |
| Selection.InitialOrphansMembers | src/miner.cpp:846-905 | A pool transaction becomes an orphan exactly when it is a candidate with some input outside the coin view. The orphan records exactly those parents, with its modified priority and fee rate. |
| Selection.DependersAdd | src/miner.cpp:872-873 | After an orphan records one more pending parent and is listed under it, mapDependers still lists each orphan exactly under the parents it waits for. |
| Selection.InitialDistinct | src/miner.cpp:837-905 | For a pool with distinct ids, queued entries are distinct, orphans are distinct, and no transaction is both queued and an orphan. |
| Selection.RemoveDistinct | src/miner.cpp:923-924 | Removing the popped entry leaves distinct entries, none of them the popped transaction. |
| Selection.ParentsFirstAppend | src/miner.cpp:953-972 | Appending a transaction whose inputs are all in the view keeps every selected transaction after its pending parents. |
| Selection.HaveInputs | src/miner.cpp:953 | `view.HaveInputs`: every input of the transaction is in the coin view. |
| Selection.RecordPendingInputs | src/miner.cpp:850-876 | The input loop opens an orphan record exactly when some input is outside the coin view. The record's parents are exactly those inputs, and mapDependers stays exact. Without such an input nothing changes. |
| Selection.BuildCandidates | src/miner.cpp:837-906 | The candidate loop yields exactly the queued and orphan candidates above, in pool order, with mapDependers listing each orphan under exactly its pending parents. |
| Selection.ForgetParent | src/miner.cpp:988-993 | An orphan forgetting a selected parent still covers its pending inputs. If it waits for nothing more, its inputs are all available and queuing it repeats no transaction. |
| Selection.ForgottenStep | src/miner.cpp:987-995 | Erasing the hash from the next listed orphan extends "exactly the listed orphans lost this parent". An orphan left empty had waited for that parent alone. |
| Selection.PushedStep | src/miner.cpp:990-992 | Pushing an orphan that waited only for the selected transaction keeps every pushed entry a released orphan with its inputs available. |
| Selection.ReleaseDependers | src/miner.cpp:985-996 | Every listed orphan forgets the selected hash and nothing else changes. Only orphans that waited for it alone are pushed, each with all its inputs available. Nothing is queued twice. The queue grows by exactly as many entries as orphans stop waiting. |
| Selection.AppendAligned | src/miner.cpp:972-974 | Appending to the three vectors keeps fees and sigops aligned with the transactions, entry by entry. |
| Selection.Append | src/miner.cpp:972-978 | Pushes the transaction, its fee and its sigop count onto the three vectors and adds them to the size, sigop and fee totals. |
| Selection.DraftTxs | src/miner.cpp:972 | A block built by appending holds exactly the transactions appended, in order. |
| Selection.DraftVectors | src/miner.cpp:972-974 | In a block built by appending, entry i of the fee vector is the fee of transaction i and entry i of the sigop vector is its sigop count. |
| Selection.DraftTotals | src/miner.cpp:975-978 | The running size is 1000 plus the transactions' sizes, the sigop count is 100 plus the sigop entries, and nFees is the sum of the fee entries. |
| Selection.TallyAppend | src/miner.cpp:969-978 | Appending keeps the block equal to the block built from its transactions. |
| Selection.TallyFacts | src/miner.cpp:909-978 | Such a block's vectors are aligned and its totals are the reserves plus the sums. |
| Selection.ChosenAppend | src/miner.cpp:953-972 | Appending a new, valid candidate whose inputs are in the view keeps the selected transactions distinct, in the pool, parents first, and the view equal to the coins plus their ids. |
| Selection.DistinctAppend | src/miner.cpp:969-972 | A transaction whose id is new keeps the ids of the selected transactions distinct. |
| Selection.PendingInit | src/miner.cpp:909-915 | Before the first round, the initial queue and orphans are candidates of the pool, distinct, and no orphan is queued. |
| Selection.PendingPop | src/miner.cpp:917-924 | The popped transaction is a pool candidate not yet selected, and the rest of the queue stays consistent. |
| Selection.PendingAppend | src/miner.cpp:969-972 | Appending a popped transaction keeps the orphans' record of pending parents valid. |
| Selection.PendingRelease | src/miner.cpp:985-996 | After the release, every queued entry is still a pool candidate. |
| Selection.Admit | src/miner.cpp:969-996 | The accepted transaction is appended to the block and its id added to the view. If some orphans are listed under it, exactly the listed orphans forget it and the queue grows by exactly the released ones, with their inputs available; if none are, queue and orphans are unchanged. The selection invariants are kept, and the queue plus waiting orphans keeps its size. |
| Selection.StartSelection | src/miner.cpp:909-915 | The block starts at the 1000-byte and 100-sigop reserves over the initial coin view. The comparator starts in fee order exactly when the priority size is 0. |
| Selection.PopKeeps | src/miner.cpp:917-924 | Taking an entry off the queue, and recording the order it was taken by, keeps the loop invariant. |
| Selection.SwitchKeeps | src/miner.cpp:946-951 | Switching to fee order after a pop keeps the loop invariant, including the one-way switch. |
| Selection.PassesEarlyChecks | src/miner.cpp:926-941 | The size, legacy-sigop and free-transaction checks that come before the switch. |
| Selection.OrderAfter | src/miner.cpp:943-951 | The order after a round: fee order stays; priority order switches for good when an entry that passed the early checks reaches the priority size or is not free-worthy. |
| Selection.Accepts | src/miner.cpp:926-967 | A popped entry is taken exactly when it passes the early checks, its inputs are in the view, the full sigop count stays below the ceiling, and its scripts pass. |
| Selection.Outcome | src/miner.cpp:926-996 | What a round does with the popped entry: the order becomes OrderAfter; if the entry is accepted it is appended and its dependers released, otherwise block, view, queue and orphans are unchanged. |
| Selection.RoundTaken | src/miner.cpp:917-996 | A round pops a best entry under the order in force before the round, removes exactly that entry from the queue, and has the outcome above. |
| Selection.CheckAndAdmit | src/miner.cpp:953-996 | For an entry that passed the early checks, the late checks decide: the round's outcome holds, and the loop invariant is kept. |
| Selection.TryAppend | src/miner.cpp:926-996 | All the checks of one round on the popped entry, with the switch between them: the new state is exactly the outcome of the round on the old one, and the loop invariant is kept. |
| Selection.StartState | src/miner.cpp:909-915 | The state before the first round: the empty block with its reserves, the coin view, the initial queue and orphans, and fee order exactly when the priority size is 0. |
| Selection.Trace | src/miner.cpp:917-997 | A run of rounds: the first starts at the start state, each starts where the previous one ended, the last ends at the finish, and each is a round as above. |
| Selection.TraceAppend | src/miner.cpp:917-997 | A run of rounds followed by one more round that starts where it ended is a run. |
| Selection.ModesFollowRounds | src/miner.cpp:917-951 | Recording the order of one more round keeps the recorded orders equal to the rounds' orders. |
| Selection.PoppedHasTopKey | src/miner.cpp:917-924 | The entry a round pops has the highest fee rate in fee order, and the highest priority in priority order, of all entries queued. |
| Selection.FeeOrderStays | src/miner.cpp:943-951 | In a run, once a round pops in fee order, every later round does too. |
| Selection.AcceptedRound | src/miner.cpp:969-996 | With no dependers, an accepted round appends the popped transaction, adds its id to the view and leaves the rest of the queue. |
| Selection.PopOfTwo | src/miner.cpp:917-924 | From two queued entries in fee order, the one with the higher fee rate is popped and the other stays. |
| Selection.TraceQueuesNonEmpty | src/miner.cpp:917 | Every round of a run pops from a non-empty queue, and every round but the last leaves one. |
| Selection.EmptyQueueEndsTrace | src/miner.cpp:917 | A round that leaves the queue empty is the last round of the run. |
| Selection.HigherFeeRateFirst | src/miner.cpp:917-997 | Two fee-paying transactions that both fit, in fee order: the run takes exactly two rounds and the block holds the higher fee rate first, then the other, whatever order they were queued in. |
| Selection.SelectRound | src/miner.cpp:917-997 | One round pops a best entry in the order in force, removes exactly it from the queue, and then either appends it (when it passes every check) or leaves block, view, queue and orphans as they were. The order becomes OrderAfter, and the recorded orders grow by the one used. The loop invariant is kept and the queue plus waiting orphans shrinks. |
| Selection.SelectTransactions | src/miner.cpp:909-998 | The selected block is the end of a run of rounds from the start state, each round taking the best entry and appending it exactly when it passes the checks, until the queue is empty. The block's vectors and totals are exactly those of its transactions. If non-empty, it is strictly below the size and sigop ceilings. Its transactions are distinct valid candidates of the pool, each after the pending parents it spends. There is one recorded order per round; the first is fee order exactly when the priority size is 0, and once fee order is used it stays. |
| BlockAssembly.BlockTime | src/miner.cpp:124-127 | The header time is the later of median-time-past + 1 and the adjusted time, stored in 32 bits. |
| BlockAssembly.BlockTimeMonotone | src/miner.cpp:124-127 | While the time fits in 32 bits, a later clock never gives an earlier header time. |
| BlockAssembly.MaskNonceBits | src/miner.cpp:1019-1023 | The masked nonce has its low 16 and high 16 bits clear, and the 224 bits between hold the random value's low 224 bits. |
| BlockAssembly.MaskNonce | src/miner.cpp:1019-1023 | Shifting the random value left by 32 in 256 bits and then right by 16 gives its low 224 bits times 2^16. |
| BlockAssembly.Block.UpdateTime | src/miner.cpp:124-131 | Sets the time to BlockTime. Where minimum-difficulty blocks are allowed, it sets the bits to the target for that time. Every other field is unchanged. |
| BlockAssembly.PooledTxs | src/miner.cpp:972 | The selected transactions, entry by entry, as block transactions. |
| BlockAssembly.TemplateCoinbase | src/miner.cpp:1004-1013 | The coinbase has one input with a null prevout and one output paying the value to the script; for a 32-bit height its scriptSig reads back as the height. |
| BlockAssembly.TemplateFeesBalance | src/miner.cpp:1016 | When nFees is the fee sum, vTxFees[0] = −nFees is minus the sum of the other entries, and the vector sums to zero. |
| BlockAssembly.SelectForBlock | src/miner.cpp:837-998 | The candidate loop followed by the selection loop: the block is the end of a run of rounds from the candidates, with mapDependers exact; totals match, ceilings hold, and the chosen transactions are valid and parents first. |
| BlockAssembly.AssembledMeaning | src/miner.cpp:1003-1016 | The three vectors have equal length, and index 0 is the coinbase with one null-prevout input and one output of subsidy + nFees. The other entries are the selected transactions' fees and sigops. nFees is the sum of vTxFees[1..], vTxFees[0] = −nFees, the vector sums to 0, and the totals are the reserves plus the entries. |
| BlockAssembly.FillHeader | src/miner.cpp:1018-1030 | The header becomes the version, the tip as previous block, no merkle root, the UpdateTime time, the target for that time, the masked nonce and an empty solution. The transactions are unchanged. |
| BlockAssembly.CoinbaseReplaced | src/miner.cpp:1015 | Replacing the dummy coinbase puts the real coinbase first, before the selected transactions. |
| BlockAssembly.FeesReplaced | src/miner.cpp:1016 | Replacing the −1 placeholder gives the template fee vector. |
| BlockAssembly.SigOpsReplaced | src/miner.cpp:1031 | Replacing the −1 placeholder gives the coinbase's sigop count followed by the selected entries. |
| BlockAssembly.DummyReplaced | src/miner.cpp:1015-1031 | The three replacements together give the template's transactions and vectors. |
| BlockAssembly.FillTemplate | src/miner.cpp:1003-1031 | After the selection, the template holds exactly the assembled transactions, vectors and header. |
| BlockAssembly.CreateNewBlock | src/miner.cpp:783-1039 | Returns a fresh template assembled from the selected block, which is the end of a run of selection rounds under the clamped limits. The clamped ceilings are respected and the transactions are valid and parents first. `ok` is the block-validity verdict on the finished block. |
| BlockAssembly.NextExtraNonce | src/miner.cpp:1093-1098 | On a new previous block the counter becomes 1; otherwise it is one more, modulo 2^32. It is 0 only when the unsigned counter wraps. |
| BlockAssembly.ExtraNonceCounts | src/miner.cpp:1093-1098 | On one previous block, the k-th call after the reset leaves k, for k < 2^32. |
| BlockAssembly.ExtraNonceFreshScripts | src/miner.cpp:1093-1101 | Two calls on the same previous block, before the counter wraps, write different coinbase scripts. |
| BlockAssembly.SetCoinbaseScript | src/miner.cpp:1100-1105 | Replaces the coinbase's first scriptSig, sets the merkle root to that of the new transactions, and keeps the header otherwise. |
| BlockAssembly.WriteScriptSig | src/miner.cpp:1101-1105 | The new scriptSig is written and the merkle root rebuilt exactly when it fits 100 bytes; otherwise the block is untouched. The header is otherwise unchanged. |
| BlockAssembly.ExtraNonceTracker.Advance | src/miner.cpp:1093-1098 | The tracker remembers the previous hash, and the counter is NextExtraNonce of whether the hash changed. |
| BlockAssembly.IncrementExtraNonce | src/miner.cpp:1090-1106 | The tracker remembers the block's previous hash. The counter is reset when that hash changed and then incremented. The new script is height, extranonce and flags. `ok` is exactly "the script fits 100 bytes"; when it does, the coinbase and merkle root are updated, otherwise the block is untouched. |
| MiningLoop.CounterBits | src/miner.cpp:1409 | Counting up from a nonce with clear low bits, the low 16 bits hold the count. |
| MiningLoop.NoWrap | src/miner.cpp:1417 | Below the top 16 bits, a 256-bit increment within the counter range does not wrap. |
| MiningLoop.NextNonce | src/miner.cpp:1417 | The 256-bit increment stays below 2^256; it adds one when that does not overflow and wraps to 0 when it does. |
| MiningLoop.ShouldRebuild | src/miner.cpp:1407-1414 | The exit checks: no peers on a chain that needs them, the low 16 nonce bits at 0xffff, pool changes older than 60 seconds, or a new tip. |
| MiningLoop.Stops | src/miner.cpp:1393-1414 | A round stops the search when the solver found a block or an exit check fires. |
| MiningLoop.SolutionAfter | src/miner.cpp:1316 | The header's solution after some rounds: the last solution handed to the callback, or the old one. |
| MiningLoop.SolutionFromLatest | src/miner.cpp:1316 | After a run of rounds the solution is the one offered in the latest round that offered one. |
| MiningLoop.SolutionUntouched | src/miner.cpp:1316 | Rounds that offer no solution leave the header's solution as it was. |
| MiningLoop.RunSolver | src/miner.cpp:1316 | The callback writes the solution it is handed into the header and changes nothing else. |
| MiningLoop.QuietBudget | src/miner.cpp:1407-1414 | With no outside event, the exit checks fire exactly when the counter reaches 0xffff. |
| MiningLoop.QuietSearchRounds | src/miner.cpp:1407-1414 | A search with no outside event stops after exactly 0xffff nonce increments. |
| MiningLoop.Search | src/miner.cpp:1282-1423 | Stops at the first round that finds a block or trips an exit check, within 0xffff increments. The nonce is the start plus the number of increments, and no earlier round stopped. The time is the last UpdateTime's. The bits are the target for that time on a minimum-difficulty chain once a round went on, and unchanged otherwise. The solution is the last one the solver handed over in any round, the stopping one included. The other fields are unchanged. |

## Left out

- `CreateNewForkBlock` (src/miner.cpp:133-455) is not modelled. It is file I/O over a UTXO snapshot for a bootstrap fork path. The commented-out block after it is dead code.
- The Equihash search is not modelled: BLAKE2b state, the tromp solver, `EhOptimisedSolve`, the target comparison in the solution callback and `ProcessBlockFound`. What a round's solver did is an observation given to `MiningLoop.Search`: the last solution it handed to the callback, and whether it found a block. So are peers, the pool update counter, elapsed seconds, the tip and the adjusted time.
- `MiningLoop.Search` does not model the regtest throw after a found block (src/miner.cpp:1340-1345) or the cancelled-solver exception; the first leaves the search loop, the second only ends the round's solver run.
- `Selection.Admit` and `Selection.Chosen` model the coin view as a set of transaction ids. `UpdateCoins` adds the accepted transaction's id but spends nothing, so two selected transactions spending the same output are not ruled out by the model. Script and double-spend validity are the `scriptsValid` field and the `blockValid` verdict.
- Threads are not modelled: `GenerateBitcoins`, cancellation, `interruption_point` and waiting for peers are concurrency.
- Collaborators are values or parameters, not code:
  - `ComputePriority`, `ApplyDeltas`, `IsFinalTx`, `GetP2SHSigOpCount` and `ContextualCheckInputs` are fields of the transaction record.
  - `GetBlockSubsidy`, `ComputeBlockVersion`, `GetAdjustedTime` and `GetRandHash` are fields of `Env`.
  - `GetLegacySigOpCount` of the coinbase is the parameter `coinbaseSigOps`.
  - `TestBlockValidity` is the parameter `blockValid`.
  - `BuildMerkleTree` is the symbolic `MerkleRootOf`, treated as injective.
  - `GetNextWorkRequired` is the symbolic `NextWorkRequired`.
  - Hashes are numbers.
- `CFeeRate`, `script.h`, `consensus.h` and `txmempool.h` are not part of this model. Fee rates and priorities are integers, not doubles. A fee rate is fee·1000/size truncated toward zero. `AllowFree` is priority > COIN·144/250. MAX_BLOCK_SIZE is 2000000 and MAX_BLOCK_SIGOPS is 20000. The script pushes follow Bitcoin script's rules.
- The branch at src/miner.cpp:856-863, for a pool transaction with an input neither in the coin view nor in the pool, is not modelled. `Selection.BuildCandidates` requires a consistent pool instead. As written, that branch can drop an orphan record that mapDependers already lists.
- `Selection.SelectRound` does not model the heap's order among entries with equal keys. Any best entry may be popped: the first in queue order.
- The values in transaction amounts, sizes and counters are unbounded integers. Only the 32-bit `unsigned int` conversions (limits, nTime, nExtraNonce, height) and the 256-bit nonce are reduced explicitly.
- The three vectors and the totals accumulate in a `Draft` value during selection and are written to the template afterwards. In the source they are pushed onto the template as each transaction is accepted. The contents at the end are the same.
- `BlockAssembly.CreateNewBlock` returns `ok` in place of throwing when `TestBlockValidity` fails.
- `BlockAssembly.IncrementExtraNonce` returns `ok` in place of the `assert` on the 100-byte bound.
- The `-blockversion` override on regtest is not modelled; the version comes from `Env`.
- The nonce is a number below 2^256 rather than an `arith_uint256`. Its shifts are multiplication and division by powers of two, with the loss past bit 255 made explicit.
- `MiningLoop.Search` reads one observation per round and requires at least 2^16 of them, because the counter bounds the search to that many rounds.
- Logging, `-printpriority`, `nLastBlockTx`/`nLastBlockSize`, metrics and `GetMinerScriptPubKey` are not modelled. They are I/O and wallet plumbing.
