/** The shared ledger context of src/api/models.rs: the chain, the mempool, the
    UTXO set and the store of open mining templates, as one sequential object
    (the source guards each with its own mutex). */
module Ledger {
  import opened Common
  import opened TxModel
  import opened Utxo
  import opened BlockPow
  import opened Chain
  import opened Wallet

  /** `DEFAULT_DIFFICULTY` of src/blockchain/mod.rs. */
  const DEFAULT_DIFFICULTY: U32 := 3

  /** What the handlers take from outside the modelled code: the hash and
      signature primitives, `Transaction::vsize_bytes`, and the constants
      `BASE_REWARD`, `MAX_BLOCK_BYTES`, `MAX_TXS_PER_BLOCK` and
      `DIFF_ADJUST_WINDOW`, whose definitions are not part of this model. */
  datatype Env = Env(
    blockHashing: BlockHashing,
    txidOf: TxidHasher,
    sighashOf: SighashHasher,
    signer: Signer,
    vsize: Transaction -> nat,
    baseReward: U64,
    maxBlockBytes: nat,
    maxTxsPerBlock: nat,
    adjustWindow: nat)

  /** A block proposal handed to a miner; `transactions` starts with the
      coinbase. */
  datatype MiningTemplate = MiningTemplate(
    templateId: string,
    index: U64,
    previousHash: string,
    timestamp: I64,
    difficulty: U32,
    minerAddress: string,
    transactions: seq<Transaction>)

  /** The template's first transaction is a coinbase: it spends nothing. */
  predicate CoinbaseFirst(t: MiningTemplate)
  {
    |t.transactions| >= 1 && t.transactions[0].inputs == []
  }

  class AppState {
    const blockchain: Blockchain
    var mempool: seq<Transaction>
    const utxoSet: UtxoSet
    var miningTemplates: map<string, MiningTemplate>

    /** The chain is never empty and every stored template leads with its
        coinbase (submission reads `transactions[0]`). */
    ghost predicate Valid()
      reads this, blockchain
    {
      && blockchain.Valid()
      && forall id :: id in miningTemplates ==> CoinbaseFirst(miningTemplates[id])
    }

    /** `AppState::default`: a fresh chain at the default difficulty whose
        genesis is stamped `now`, and empty mempool, UTXO set and template
        store. */
    constructor (bh: BlockHashing, now: I64)
      ensures Valid()
      ensures fresh(blockchain) && fresh(utxoSet)
      ensures blockchain.chain == [Genesis(bh, now)] && blockchain.difficulty == DEFAULT_DIFFICULTY
      ensures ChainValid(bh, blockchain.chain, blockchain.difficulty)
      ensures mempool == [] && utxoSet.entries == map[] && miningTemplates == map[]
    {
      blockchain := new Blockchain(bh, DEFAULT_DIFFICULTY, now);
      mempool := [];
      utxoSet := new UtxoSet();
      miningTemplates := map[];
    }
  }
}
