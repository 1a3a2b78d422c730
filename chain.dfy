/** The append-only chain of src/blockchain/model.rs: a vector of blocks that
    starts at a genesis block, plus the difficulty required of new blocks. */
module Chain {
  import opened Common
  import opened TxModel
  import opened BlockPow

  /** The genesis checks of `is_valid_chain` (no proof of work is asked of it). */
  predicate GenesisCanonical(bh: BlockHashing, g: Block)
  {
    g.index == 0 && g.previousHash == "0" && g.hash == ComputeHash(bh, g)
  }

  /** What `is_valid_chain` decides: a non-empty chain whose genesis is canonical
      and whose every later block links to its predecessor's hash and is valid
      at the chain's current difficulty. */
  predicate ChainValid(bh: BlockHashing, blocks: seq<Block>, difficulty: nat)
  {
    && |blocks| > 0
    && GenesisCanonical(bh, blocks[0])
    && forall i :: 1 <= i < |blocks| ==>
         blocks[i].previousHash == blocks[i - 1].hash && IsValid(bh, blocks[i], difficulty)
  }

  /** The two refusals of `append_premined_block`. */
  datatype ChainError = StaleTemplate | InvalidProofOfWork

  /** Appending a block that links to the head and is valid at the current
      difficulty keeps a valid chain valid. */
  lemma {:induction false} AppendPreservesValidity(bh: BlockHashing, blocks: seq<Block>, b: Block, difficulty: nat)
    requires ChainValid(bh, blocks, difficulty)
    requires b.previousHash == blocks[|blocks| - 1].hash && IsValid(bh, b, difficulty)
    ensures ChainValid(bh, blocks + [b], difficulty)
  {
    var blocks' := blocks + [b];
    forall i | 1 <= i < |blocks'|
      ensures blocks'[i].previousHash == blocks'[i - 1].hash && IsValid(bh, blocks'[i], difficulty)
    {
      if i < |blocks| {
        assert blocks'[i] == blocks[i] && blocks'[i - 1] == blocks[i - 1];
      }
    }
  }

  /** Validation uses the present difficulty only, so lowering it never turns a
      valid chain invalid. */
  lemma LowerDifficultyKeepsValidity(bh: BlockHashing, blocks: seq<Block>, d: nat, d': nat)
    requires ChainValid(bh, blocks, d) && d' <= d
    ensures ChainValid(bh, blocks, d')
  {
    forall i | 1 <= i < |blocks|
      ensures IsValid(bh, blocks[i], d')
    {
      IsValidAntitone(bh, blocks[i], d, d');
    }
  }

  /** Changing any one field of any stored block of a valid chain makes
      `is_valid_chain` fail: the tampered block's stored hash no longer matches
      its content, which the genesis check and `is_valid` both test. */
  lemma TamperedChainInvalid(bh: BlockHashing, blocks: seq<Block>, difficulty: nat, i: nat, b': Block)
    requires Injective(bh.sha256Hex)
    requires ChainValid(bh, blocks, difficulty)
    requires i < |blocks| && OneFieldChanged(bh, blocks[i], b')
    ensures !ChainValid(bh, blocks[i := b'], difficulty)
  {
    TamperedBlockInvalid(bh, blocks[i], b', difficulty);
    assert blocks[i := b'][i] == b';
  }

  class Blockchain {
    var chain: seq<Block>
    var difficulty: U32

    /** The chain is never empty, so `last_block` is always defined. */
    ghost predicate Valid()
      reads this
    {
      |chain| > 0
    }

    /** `Blockchain::new`: one genesis block stamped `now`. */
    constructor (bh: BlockHashing, difficulty: U32, now: I64)
      ensures Valid()
      ensures chain == [Genesis(bh, now)] && this.difficulty == difficulty
      ensures ChainValid(bh, chain, difficulty)
    {
      chain := [Genesis(bh, now)];
      this.difficulty := difficulty;
    }

    /** `last_block`: the tip, which is in the chain. */
    function LastBlock(): (b: Block)
      reads this
      requires Valid()
      ensures b == chain[|chain| - 1] && b in chain
    {
      chain[|chain| - 1]
    }

    /** `len`: never below one. */
    function Len(): (n: nat)
      reads this
      requires Valid()
      ensures n >= 1
    {
      |chain|
    }

    /** `difficulty`: the current setting. */
    function Difficulty(): (d: U32)
      reads this
      ensures d == difficulty
    {
      difficulty
    }

    /** `mine_block`: build a block at the next index linked to the head, mine
        it at the current difficulty (with at most `fuel` nonces tried) and
        append it. */
    method MineBlock(bh: BlockHashing, data: string, now: I64, fuel: nat) returns (mined: Option<Block>)
      requires Valid()
      modifies this
      ensures Valid() && difficulty == old(difficulty)
      ensures mined.None? ==> chain == old(chain)
      ensures mined.Some? ==> chain == old(chain) + [mined.value]
      ensures mined.Some? ==>
                && mined.value.index == |old(chain)| % U64_LIMIT
                && mined.value.previousHash == old(LastBlock()).hash
                && mined.value.timestamp == now && mined.value.data == Text(data)
                && IsValid(bh, mined.value, difficulty)
      ensures ChainValid(bh, old(chain), difficulty) ==> ChainValid(bh, chain, difficulty)
    {
      var index := |chain| % U64_LIMIT;
      var prevHash := LastBlock().hash;
      var block := NewBlock(bh, index, prevHash, Text(data), now);
      mined := Mine(bh, block, difficulty, fuel);
      if mined.Some? {
        if ChainValid(bh, chain, difficulty) {
          AppendPreservesValidity(bh, chain, mined.value, difficulty);
        }
        chain := chain + [mined.value];
      }
    }

    /** `append_premined_block` (called by the mining protocol; its body is not
        part of this model): refuse a block that does not link to the head or
        fails `is_valid` at the current difficulty, append it otherwise. */
    method AppendPremined(bh: BlockHashing, block: Block) returns (r: Result<(), ChainError>)
      requires Valid()
      modifies this
      ensures Valid() && difficulty == old(difficulty)
      ensures block.previousHash != old(LastBlock()).hash ==> r == Err(StaleTemplate)
      ensures block.previousHash == old(LastBlock()).hash && !IsValid(bh, block, difficulty) ==> r == Err(InvalidProofOfWork)
      ensures r.Ok? <==> block.previousHash == old(LastBlock()).hash && IsValid(bh, block, difficulty)
      ensures chain == if r.Ok? then old(chain) + [block] else old(chain)
      ensures ChainValid(bh, old(chain), difficulty) ==> ChainValid(bh, chain, difficulty)
    {
      if block.previousHash != LastBlock().hash {
        return Err(StaleTemplate);
      }
      if !IsValid(bh, block, difficulty) {
        return Err(InvalidProofOfWork);
      }
      if ChainValid(bh, chain, difficulty) {
        AppendPreservesValidity(bh, chain, block, difficulty);
      }
      chain := chain + [block];
      r := Ok(());
    }

    /** `is_valid_chain`: the index loop with its early exits. */
    method IsValidChain(bh: BlockHashing) returns (ok: bool)
      ensures ok <==> ChainValid(bh, chain, difficulty)
    {
      if |chain| == 0 {
        return false;
      }
      var genesis := chain[0];
      if genesis.index != 0 || genesis.previousHash != "0" || genesis.hash != ComputeHash(bh, genesis) {
        return false;
      }
      var i := 1;
      while i < |chain|
        invariant 1 <= i <= |chain|
        invariant forall j :: 1 <= j < i ==> chain[j].previousHash == chain[j - 1].hash && IsValid(bh, chain[j], difficulty)
      {
        if chain[i].previousHash != chain[i - 1].hash {
          return false;
        }
        if !IsValid(bh, chain[i], difficulty) {
          return false;
        }
        i := i + 1;
      }
      return true;
    }

    /** `set_difficulty`: only the difficulty changes. */
    method SetDifficulty(d: U32)
      modifies this
      ensures difficulty == d && chain == old(chain)
    {
      difficulty := d;
    }
  }
}
