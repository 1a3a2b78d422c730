# Ledger engine of a single-node UTXO proof-of-work chain

A Dafny model of the in-memory ledger of `rust_blockchain`. It covers six parts:

- **UTXO store.** A map from outpoint `(txid, vout)` to output `(address, amount)`, updated in place.
- **Transaction value type.** A transaction has a content-derived txid and a signing hash that leaves out the witnesses.
- **Block proof of work.** This covers the block hash, the nonce search and block validity.
- **Append-only chain.** A chain that starts at a genesis block and can validate itself.
- **Transaction admission.** Structural checks, then validation against the UTXO set, then an append to the mempool.
- **Two-phase mining protocol.** A fee-rate block selector, then template building, then a submission step that consumes the template and applies the block to the chain, the UTXO set and the mempool.

Two read-only folds complete it: the per-address balance and the block-interval statistics.

Some parts of the source change state step by step. These are modelled as classes and methods:

- `UtxoSet`, `Blockchain` and `AppState` are classes whose fields the methods reassign.
- The source's hand-written `for` loops are `while` loops with invariants. The library calls `Vec::retain` and `sort_by` are modelled as recursive functions.

Most methods are proved equal to a recursive specification function. Simple setters and removals such as `Insert`, `Spend` and `SetDifficulty` state their new state directly. The properties that matter are then proved about those functions:

- no outpoint is claimed twice in a block;
- the chain stays valid;
- a block's UTXO effect is exactly "spent inputs out, new outputs in";
- a template is consumed at most once;
- the coinbase amount cannot overflow.

Hashing, serialisation and signature checking are foreign calls. They enter as function-valued parameters (`BlockHashing`, `TxidHasher`, `SighashHasher`, `Signer`). A lemma that needs one of them to be injective says so in its precondition.

Modules, one per source file or concern:

| file | module | source |
|---|---|---|
| common.dfy | `Common` | fixed-width integer ranges, `Option`/`Result` |
| tx_model.dfy | `TxModel` | src/transaction/model.rs and `OutPoint` |
| utxo.dfy | `Utxo` | src/transaction/utxo.rs |
| block.dfy | `BlockPow` | src/blockchain/block.rs |
| chain.dfy | `Chain` | src/blockchain/model.rs |
| wallet.dfy | `Wallet` | the two signature primitives of src/wallet/mod.rs, as parameters |
| ledger.dfy | `Ledger` | src/api/models.rs and src/blockchain/mod.rs |
| tx_api.dfy | `TxApi` | src/api/tx.rs |
| string_order.dfy | `StringOrder` | Rust's ordering on `String` |
| fee_selection.dfy | `FeeSelection` | `select_transactions` in src/api/mining.rs |
| mining.dfy | `MiningApi` | `get_template` and `submit_solution` in src/api/mining.rs |
| balance.dfy | `BalanceApi` | src/api/balance.rs |
| stats.dfy | `StatsApi` | src/api/stats.rs |

Two behaviours a reader might expect of such a ledger are not what the code does, and the model follows the code:

- **No difficulty retargeting.** A proof-of-work chain commonly retargets its difficulty when a block is appended. The available `mine_block` (src/blockchain/model.rs:29-38) does not retarget. The body of `append_premined_block`, which `submit_solution` calls, is not available, and neither are the window constants that src/api/stats.rs:4 imports. So the model keeps the difficulty unchanged across an append, and the difficulty reported after a submission is the current one.
- **Stable sort, not a total comparator.** A fee-rate selector would usually order by fee rate, then fee, then txid as a total order. The comparator at src/api/mining.rs:59-65 leaves exact ties to the stability of `sort_by`. The model makes that explicit: mempool position is the last sort key.

## Model

| member | source | states |
|---|---|---|
| TxModel.NewTransaction | src/transaction/model.rs:57-71 | the built transaction keeps the given inputs and outputs exactly, in order |
| TxModel.NewTransactionDeterministic | src/transaction/model.rs:57-64 | two transactions built from equal inputs and outputs have the same txid and are equal |
| TxModel.OutputSum | src/transaction/model.rs:73-75 | the total of no outputs is zero, and every output's amount is at most the total |
| TxModel.OutputSumBound | src/transaction/model.rs:73-75 | the output total is at most the output count times `u64::MAX` |
| TxModel.OutputSumFitsU128 | src/transaction/model.rs:73-75 | the u128 output total cannot overflow for any vector length below 2^64 |
| TxModel.Outpoints | src/transaction/model.rs:81-85 | the signing payload's input list has one entry per input, holding exactly that input's outpoint |
| TxModel.SigningPayloadOf | src/transaction/model.rs:79-92 | the payload holds the outputs and, per input in order, its outpoint only |
| TxModel.Sighash | src/transaction/model.rs:94-101 | the sighash equals the digest of the same transaction with every pubkey and signature blanked |
| TxModel.SighashIgnoresWitnesses | src/transaction/model.rs:79-101 | changing any input's pubkey or signature leaves the signing payload and the sighash unchanged |
| TxModel.TxidCommitsToWitnesses | src/transaction/model.rs:57-64 | re-signing one input with a different pubkey or signature keeps the sighash but, for an injective hash, changes the txid |
| Utxo.OutputsOfKeys | src/transaction/utxo.rs:73-81 | while the output count fits a u32, the entries written for a transaction are exactly `(txid, i)` for every output index `i`, each mapped to `outputs[i]` |
| Utxo.UtxoSet.constructor | src/transaction/utxo.rs:35-39 | a new set is empty |
| Utxo.UtxoSet.Get | src/transaction/utxo.rs:51-53 | finds an output iff the outpoint is stored, and then it is the stored one |
| Utxo.UtxoSet.Len | src/transaction/utxo.rs:59-61 | the entry count |
| Utxo.UtxoSet.Contains | src/transaction/utxo.rs:55-57 | holds iff `get` finds an entry |
| Utxo.UtxoSet.IsEmpty | src/transaction/utxo.rs:63-65 | holds iff the length is zero |
| Utxo.UtxoSet.Iter | src/transaction/utxo.rs:68-70 | the view holds exactly the entries `get` returns |
| Utxo.UtxoSet.Insert | src/transaction/utxo.rs:42-44 | afterwards `get(op)` is the new output, overwriting any prior entry, and every other key is unchanged |
| Utxo.UtxoSet.Spend | src/transaction/utxo.rs:47-49 | returns the prior entry and removes the key; an absent key returns `None` and leaves the set unchanged |
| Utxo.UtxoSet.AddTxOutputs | src/transaction/utxo.rs:73-81 | the new map is the old one overwritten with one entry per output, keyed `(txid, i as u32)` |
| Utxo.AddTxOutputsEffect | src/transaction/utxo.rs:73-81 | after `add_tx_outputs`, `(txid, i)` maps to `outputs[i]` for every output, and every other key is as before |
| BlockPow.Genesis | src/blockchain/block.rs:19-30 | genesis has index 0, previous hash "0", nonce 0, and a stored hash equal to the computed one |
| BlockPow.NewBlock | src/blockchain/block.rs:33-44 | a new block keeps its arguments, has nonce 0 and a current hash |
| BlockPow.ComputeHash | src/blockchain/block.rs:48-57 | the digest is the one of the block with its stored hash blanked: the stored hash is not hashed |
| BlockPow.ComputeHashIgnoresHash | src/blockchain/block.rs:48-57 | setting the stored hash never changes what `compute_hash` returns |
| BlockPow.WrappingInc | src/blockchain/block.rs:68 | the nonce increment wraps modulo 2^64 |
| BlockPow.Mine | src/blockchain/block.rs:61-70 | if the search returns, only nonce and hash changed, the hash is current and starts with `difficulty` zeros, the block is valid, and the nonce is the first in search order that works |
| BlockPow.IsValid | src/blockchain/block.rs:74-83 | a hash that passes the mining test passes `is_valid`; for a hash at least `difficulty` long, `is_valid` holds iff the hash is current and its first `difficulty` characters are '0' |
| BlockPow.IsValidAntitone | src/blockchain/block.rs:74-83 | a block valid at some difficulty is valid at every lower one |
| BlockPow.NatToDecimalRoundTrip | src/blockchain/block.rs:48-57 | reading back a formatted unsigned number gives the number, so distinct indices or nonces are written differently into the preimage |
| BlockPow.IntToDecimalRoundTrip | src/blockchain/block.rs:48-57 | reading back a formatted signed timestamp gives the timestamp |
| BlockPow.IndexInPreimage | src/blockchain/block.rs:48-57 | changing the index changes the preimage |
| BlockPow.TimestampInPreimage | src/blockchain/block.rs:48-57 | changing the timestamp changes the preimage |
| BlockPow.PreviousHashInPreimage | src/blockchain/block.rs:48-57 | changing the previous hash changes the preimage |
| BlockPow.NonceInPreimage | src/blockchain/block.rs:48-57 | changing the nonce changes the preimage |
| BlockPow.TamperedBlockInvalid | src/blockchain/block.rs:48-83 | for an injective hash, changing any one field of a block with a current hash (index, timestamp, previous hash, nonce, payload or the stored hash) leaves a stale stored hash, so the block fails `is_valid` at every difficulty |
| BlockPow.TamperedPayloadInvalid | src/blockchain/block.rs:106-113 | for an injective hash, changing the payload of a block with a current hash makes the stored hash stale and the block invalid |
| Chain.AppendPreservesValidity | src/blockchain/model.rs:56-71 | appending a block that links to the head and is valid keeps a valid chain valid |
| Chain.LowerDifficultyKeepsValidity | src/blockchain/model.rs:82-85 | lowering the difficulty never turns a valid chain invalid |
| Chain.Blockchain.constructor | src/blockchain/model.rs:12-19 | a new chain is one genesis block at the given difficulty, and it is valid |
| Chain.Blockchain.LastBlock | src/blockchain/model.rs:22-26 | the last block of the chain, which is a block of the chain |
| Chain.Blockchain.Difficulty | src/blockchain/model.rs:78-80 | the current difficulty setting |
| Chain.Blockchain.Len | src/blockchain/model.rs:74-76 | the length is never below one, so `last_block` is always defined |
| Chain.Blockchain.MineBlock | src/blockchain/model.rs:29-38 | appends exactly one block, leaving earlier blocks unchanged; the block has index = old length, links to the old head, and is valid at the current difficulty; chain validity is preserved |
| Chain.Blockchain.AppendPremined | src/api/mining.rs:249-251 | refuses a block that does not link to the head (stale) or is invalid at the current difficulty; otherwise appends it; validity is preserved |
| Chain.TamperedChainInvalid | src/blockchain/model.rs:41-72 | for an injective hash, changing any one field of any block of a valid chain makes `is_valid_chain` false |
| Chain.Blockchain.IsValidChain | src/blockchain/model.rs:41-72 | true iff the chain is non-empty, genesis is canonical, and every later block links to its predecessor and is valid at the current difficulty |
| Chain.Blockchain.SetDifficulty | src/blockchain/model.rs:82-85 | only the difficulty changes; the blocks are untouched |
| Ledger.AppState.constructor | src/api/models.rs:25-35 | the default ledger is a valid one-block chain at difficulty 3, with an empty mempool, UTXO set and template store |
| TxApi.CheckInputs | src/api/tx.rs:166-192 | the input loop only ever fails with a per-input error, never with an empty-input, duplicate or insufficient-funds error |
| TxApi.Validate | src/api/tx.rs:150-201 | no inputs and duplicate inputs are refused first, in that order; an insufficient-funds refusal means every input passed its checks and the referenced amount is below the output total |
| TxApi.CheckInputsOk | src/api/tx.rs:168-192 | the input loop succeeds iff every input passes its checks, and then yields the total referenced amount |
| TxApi.FirstFailureDecides | src/api/tx.rs:168-192 | if all inputs before `k` pass and input `k` fails, validation fails with input `k`'s error |
| TxApi.AcceptedMeans | src/api/tx.rs:150-201 | an accepted transaction has inputs and no duplicate outpoint; every input references an existing output owned by its pubkey's address and carries a non-empty signature that verifies against the sighash; inputs cover outputs |
| TxApi.EconomicsDecides | src/api/tx.rs:194-200 | once the earlier checks pass, acceptance holds iff referenced amount ≥ output total (so a zero fee is accepted); otherwise the error is insufficient funds |
| TxApi.ScanForDuplicate | src/api/tx.rs:155-162 | reports a duplicate iff two inputs share an outpoint |
| TxApi.SumCheckedInputs | src/api/tx.rs:164-192 | the loop returns the first failing input's error in check order, or the referenced total |
| TxApi.ValidateTransaction | src/api/tx.rs:150-201 | the result is the check-ordered verdict: no inputs, duplicate, per-input checks, economics; the UTXO set is only read |
| TxApi.PostTransaction | src/api/tx.rs:69-121 | no outputs or a zero amount is rejected before validation; otherwise the validation verdict decides; acceptance appends the built transaction to the mempool and returns its txid; a refusal leaves the mempool unchanged; the application state stays valid |
| StringOrder.StrLessTransitive | src/api/mining.rs:64 | the txid ordering is transitive |
| StringOrder.StrLessTotal | src/api/mining.rs:64 | any two different txids are ordered one way or the other |
| FeeSelection.BeforeAsymmetric | src/api/mining.rs:59-65 | the candidate order is asymmetric |
| FeeSelection.NotAfterTransitive | src/api/mining.rs:59-65 | "not after" in the candidate order is transitive |
| FeeSelection.SortCandsCorrect | src/api/mining.rs:59-65 | sorting is a permutation of the candidates, ordered by fee rate desc, fee desc, txid asc (mempool position for exact ties) |
| FeeSelection.CandidatesSound | src/api/mining.rs:22-57 | every candidate describes an eligible entry (has inputs, all inputs in the snapshot, inputs ≥ outputs), with its fee, txid and size; an entry is a candidate iff it is eligible |
| FeeSelection.StepKeepsSelectionOk | src/api/mining.rs:72-98 | one greedy turn keeps every selection invariant |
| FeeSelection.WalkOk | src/api/mining.rs:67-101 | the greedy walk over described candidates satisfies the selection invariant |
| FeeSelection.FullStaysFull | src/api/mining.rs:72-75 | once the count limit is reached the rest of the order changes nothing, so breaking out is exact |
| FeeSelection.Select | src/api/mining.rs:12-102 | the selection respects both limits and picks only eligible mempool entries |
| FeeSelection.SelectCorrect | src/api/mining.rs:12-102 | the selection is within both limits, its fees sum to `total_fees`, every pick is an eligible mempool entry, no two picks share an outpoint, and the walk follows the sorted order |
| FeeSelection.SumPresentInputs | src/api/mining.rs:26-39 | returns the referenced total iff every input is in the snapshot |
| FeeSelection.CollectCandidates | src/api/mining.rs:22-57 | the loop yields exactly the candidate list, in mempool order |
| FeeSelection.ClaimsConsumed | src/api/mining.rs:81-91 | reports a conflict iff some input's outpoint is already consumed |
| FeeSelection.Claim | src/api/mining.rs:93-95 | the consumed set gains exactly the transaction's outpoints |
| FeeSelection.GreedyWalk | src/api/mining.rs:67-101 | the loop with its break and continues computes the greedy walk |
| FeeSelection.SelectTransactions | src/api/mining.rs:12-102 | returns the specified selection: count ≤ max, bytes ≤ max, fees = sum of fees, only eligible mempool entries, no shared outpoint; reads only |
| MiningApi.TrimStart | src/api/mining.rs:110 | drops exactly the leading whitespace |
| MiningApi.TrimEnd | src/api/mining.rs:110 | drops exactly the trailing whitespace |
| MiningApi.Trim | src/api/mining.rs:110-113 | an address trims to nothing iff it is all whitespace |
| MiningApi.CoinbaseAmount | src/api/mining.rs:136-137 | the amount is base + fees when that fits, `u64::MAX` otherwise, never below the base, never overflowing |
| MiningApi.SourceCoinbase | src/api/mining.rs:138-144 | the coinbase as written: no inputs, one output to the miner |
| MiningApi.Coinbase | src/api/mining.rs:138-144 | the corrected coinbase: no inputs, one output to the miner, height in the txid payload |
| MiningApi.AddOutputsEffect | src/api/mining.rs:271-274 | adding the outputs of a transaction list creates exactly their outpoints and keeps every other entry |
| MiningApi.AddOutputsValues | src/api/mining.rs:271-274 | with pairwise-distinct txids, output i of each transaction is stored unchanged under `(txid, i)` |
| MiningApi.ApplyBlockEffect | src/api/mining.rs:264-274 | after a block an outpoint is present iff it was present and not spent, or it is an output of the block; untouched entries keep their value; spent and not re-created entries are gone; each coinbase output is stored under `(coinbase txid, i)`, and with distinct txids every transaction's output i is stored under `(txid, i)` |
| MiningApi.Retain | src/api/mining.rs:281-282 | keeps exactly the mempool transactions whose txid is not included |
| MiningApi.TemplateBlock | src/api/mining.rs:228-235 | the rebuilt block has the template's index, previous hash, timestamp and transactions, the submitted nonce, and a current hash |
| MiningApi.CoinbaseOnlyBlock | src/api/mining.rs:274 | a block holding only a one-output coinbase adds exactly that output |
| MiningApi.SourceCoinbaseCollides | src/api/mining.rs:138-144 | as written, two coinbase-only blocks paying the same miner the same amount leave one UTXO entry |
| MiningApi.CoinbaseHeightsDistinct | src/api/mining.rs:138-144 | corrected coinbases at different heights have different txids and both rewards stay in the set |
| MiningApi.CoinbaseTxidFresh | src/api/mining.rs:138-144 | a corrected coinbase's txid differs from every `Transaction::new` txid |
| MiningApi.GetTemplate | src/api/mining.rs:110-170 | blank address iff refused, with the store unchanged; otherwise the template has the head's index, hash and difficulty, the timestamp, the trimmed miner, and the as-written coinbase (`Transaction::new` with no inputs, so no height in its txid) followed by the selection, and it is stored under the id |
| MiningApi.TemplateShape | src/api/mining.rs:146-149 | for a template holding the as-written coinbase and the selection, the coinbase is first, spends nothing and pays at least the base reward; the rest shares no outpoint |
| MiningApi.SpendInputs | src/api/mining.rs:266-270 | every outpoint spent by the transactions is removed and nothing else |
| MiningApi.AddAllOutputs | src/api/mining.rs:271-273 | the outputs of each transaction are added in order |
| MiningApi.ApplyBlockTo | src/api/mining.rs:264-279 | the UTXO set becomes the block's effect |
| MiningApi.SubmitSolution | src/api/mining.rs:197-305 | the template is always removed; unknown, stale, mismatch and insufficient work are refused in that order, leaving chain, UTXO set and mempool unchanged; acceptance appends the rebuilt block, applies it to the UTXO set, prunes the included txids and reports the new index; chain validity is preserved |
| BalanceApi.AmountOwnedSplit | src/api/balance.rs:12-17 | the balance does not depend on the order in which the map is walked |
| BalanceApi.AmountOwnedBound | src/api/balance.rs:9-14 | the u128 balance cannot overflow below 2^64 entries |
| BalanceApi.NoEntriesNoBalance | src/api/balance.rs:9 | an address with no entries has balance 0 |
| BalanceApi.GetBalance | src/api/balance.rs:7-25 | balance = sum of the amounts paying the address, utxos = number of such entries, 0 entries means 0 balance; the set is only read |
| StatsApi.LastInterval | src/api/stats.rs:15-22 | absent below two blocks; otherwise the last gap clamped at 0, never negative |
| StatsApi.ClampedGapsBounds | src/api/stats.rs:25-31 | the clamped window total is at least one per gap and at least the timestamp span covered |
| StatsApi.WindowTotal | src/api/stats.rs:25-36 | absent below window + 1 blocks; otherwise the sum of the last `window` gaps each clamped to ≥ 1, hence ≥ window |
| StatsApi.GetStats | src/api/stats.rs:7-62 | reports height, difficulty, the two interval figures and the mempool and UTXO sizes; nothing is modified |

## Left out

- HTTP framing, routing, startup, the health endpoint, logging and `Instant` timing are not modelled. Each handler's logic is a method returning a result variant, and the two JSON shapes of a submission refusal are not distinguished.
- Mutex locking is not modelled. `AppState` is one sequential object, and interleavings of concurrent handlers are out of scope.
- SHA-256, serde_json serialisation and hex encoding are modelled as function parameters. Only the structure of what is hashed is modelled. The fixed digest lengths (32 bytes for a sighash, 64 hex characters for a block hash) are not stated, so `IsValid` also covers a hash shorter than the difficulty, as the source's `take(difficulty)` test does.
- secp256k1 address derivation and signature verification are modelled as function parameters that may return an error.
- The wallet endpoint and keypair generation use OS randomness and are not modelled.
- The dev faucet is not modelled. Its effect is a single `UtxoSet.Insert`.
- The chain HTTP handlers and `get_mempool` are thin wrappers and are not modelled.
- `Uuid::new_v4()` and `Utc::now()` become the parameters `templateId` and `now`.
- The definitions of `Block::new_with_timestamp`, `append_premined_block`, `Transaction::vsize_bytes`, `BASE_REWARD`, `MAX_BLOCK_BYTES`, `MAX_TXS_PER_BLOCK` and `DIFF_ADJUST_WINDOW` are not part of this model.
  - `Block::new_with_timestamp` is modelled from its call site.
  - `append_premined_block` is modelled from its documented contract (stale refusal, proof-of-work refusal, append); its call site only forwards the error.
  - The others are fields of `Ledger.Env`.
  - A block built from transactions carries them as a payload whose preimage text is a parameter.
- `TARGET_BLOCK_TIME_SECS` and `DIFF_ADJUST_THRESHOLD_PCT` are passed through unchanged and are not modelled.
- Difficulty retargeting is not modelled: the available `mine_block` has none, and any the missing `append_premined_block` performs is not part of this model.
- Chain.Blockchain.AppendPremined: its refusals come from the documented contract, not from a visible body, and `difficulty == old(difficulty)` is assumed, not taken from the source.
- MiningApi.SubmitSolution: the difficulty it reports after an accepted block, and the chain validity it preserves, rest on that unchanged-difficulty assumption about `append_premined_block`.
- BlockPow.Mine: the source loops without bound. The model tries at most `fuel` nonces and returns `None` otherwise, so "if it returns" is the guarantee.
- Chain.Blockchain.MineBlock: the model returns `None` when the nonce search runs out of fuel. In that case nothing is appended.
- FeeSelection.FeeRate: the f64 fee rate is computed as an exact rational. Orderings that f64 rounding would merge or swap are not modelled.
- StatsApi.WindowTotal: the f64 average is not computed. The integer window total is modelled, without i64 overflow of the timestamp differences or the total.
- usize overflow of `total_bytes + size` in the selector is not modelled. Neither is the wrap of `len() as u64` beyond what `Len() % 2^64` states.
- MiningApi.Retain: states membership and length only, not that the kept transactions keep their relative order.
- The sort is modelled as an insertion sort whose last key is mempool position. This has the same result as Rust's stable `sort_by`, but the model proves only sortedness and permutation, not equality with that algorithm.

## Findings

| source | as written | input that shows it | evidently intended | confidence | as-written member | corrected member |
|---|---|---|---|---|---|---|
| src/api/mining.rs:138-144 | the coinbase is `Transaction::new(vec![], [TxOutput(miner, amount)])`, so its txid depends only on the miner and the amount | two consecutive templates for the same miner with empty mempools: both coinbases pay `BASE_REWARD`, have the same txid, and the second block's output overwrites the first one's unspent `(txid, 0)` entry, so one reward is lost | each block's reward is a distinct unspent output (commit the height into the coinbase, as BIP 34 does) | not executed | MiningApi.SourceCoinbaseCollides | MiningApi.CoinbaseHeightsDistinct |

`GetTemplate` builds the coinbase as written, and `SubmitSolution` applies it. The corrected `MiningApi.Coinbase` stands beside them, with `CoinbaseHeightsDistinct` and `CoinbaseTxidFresh` stating what the fix guarantees.
