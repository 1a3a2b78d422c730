/** The template and submission steps of the mining protocol
    (src/api/mining.rs): a template fixes the head, the timestamp and the
    transaction list (coinbase first) and is stored under an id; a submission
    consumes the template, checks it against the current head and difficulty,
    appends the block and applies it to the UTXO set and the mempool. */
module MiningApi {
  import opened Common
  import opened TxModel
  import opened Utxo
  import opened BlockPow
  import opened Chain
  import opened Ledger
  import opened FeeSelection

  datatype TemplateError = MinerAddressRequired

  /** The refusals of `submit_solution`. */
  datatype SubmitError = UnknownTemplate | Stale | HashMismatch | InsufficientWork

  /** The accepted answer: the new block's index, its hash and the difficulty. */
  datatype Accepted = Accepted(minedIndex: nat, hash: string, difficulty: U32)

  /** Unicode White_Space, the set `str::trim` strips. */
  predicate IsWhitespace(c: char)
  {
    || ('\t' <= c <= '\r') || c == ' ' || c == '\U{0085}' || c == '\U{00A0}' || c == '\U{1680}'
    || ('\U{2000}' <= c <= '\U{200A}') || c == '\U{2028}' || c == '\U{2029}' || c == '\U{202F}'
    || c == '\U{205F}' || c == '\U{3000}'
  }

  /** Drops the leading whitespace: what is left is a suffix that does not
      start with whitespace, and everything dropped was whitespace. */
  function TrimStart(s: string): (r: string)
    ensures |r| <= |s| && r == s[|s| - |r|..]
    ensures r == [] || !IsWhitespace(r[0])
    ensures forall i :: 0 <= i < |s| - |r| ==> IsWhitespace(s[i])
  {
    if s != [] && IsWhitespace(s[0]) then TrimStart(s[1..]) else s
  }

  /** Drops the trailing whitespace: what is left is a prefix that does not
      end with whitespace, and everything dropped was whitespace. */
  function TrimEnd(s: string): (r: string)
    ensures |r| <= |s| && r == s[..|r|]
    ensures r == [] || !IsWhitespace(r[|r| - 1])
    ensures forall i :: |r| <= i < |s| ==> IsWhitespace(s[i])
  {
    if s != [] && IsWhitespace(s[|s| - 1]) then TrimEnd(s[..|s| - 1]) else s
  }

  /** `str::trim`; an address trims to nothing exactly when it is all
      whitespace. */
  function Trim(s: string): (r: string)
    ensures r == [] <==> forall i :: 0 <= i < |s| ==> IsWhitespace(s[i])
  {
    TrimEnd(TrimStart(s))
  }

  /** The coinbase amount: `BASE_REWARD` plus the fees, the fees capped at
      `u64::MAX - BASE_REWARD`, so the sum always fits a u64. */
  function CoinbaseAmount(baseReward: U64, totalFees: nat): (amount: U64)
    ensures amount >= baseReward
    ensures totalFees <= U64_MAX - baseReward ==> amount == baseReward + totalFees
    ensures totalFees > U64_MAX - baseReward ==> amount == U64_MAX
  {
    baseReward + Min(totalFees, U64_MAX - baseReward)
  }

  /** The coinbase as the source builds it: `Transaction::new` with no inputs
      and one output, so its txid depends only on the miner and the amount. */
  function SourceCoinbase(txidOf: TxidHasher, miner: string, amount: U64): (tx: Transaction)
    ensures tx.inputs == [] && tx.outputs == [TxOutput(miner, amount)]
  {
    NewTransaction(txidOf, [], [TxOutput(miner, amount)])
  }

  /** The corrected coinbase: the same transaction, with the block height
      committed into the txid payload. The handlers below keep the source's
      `SourceCoinbase`; this definition and the lemmas about it show what the
      fix buys. */
  function Coinbase(txidOf: TxidHasher, height: U64, miner: string, amount: U64): (tx: Transaction)
    ensures tx.inputs == [] && tx.outputs == [TxOutput(miner, amount)]
  {
    Transaction(txidOf(TxidPayload.Coinbase(height, [TxOutput(miner, amount)])), [], [TxOutput(miner, amount)])
  }

  /** The outputs of each transaction in order, a later write winning. */
  function AddOutputs(m: map<OutPoint, TxOutput>, txs: seq<Transaction>): map<OutPoint, TxOutput>
  {
    if txs == [] then m
    else AddOutputs(m, txs[..|txs| - 1]) + OutputsOf(txs[|txs| - 1].txid, txs[|txs| - 1].outputs)
  }

  /** The UTXO effect of an accepted block `txs` (coinbase first): every input
      of the other transactions is spent, then their outputs are added, then
      the coinbase outputs. */
  function ApplyBlock(m: map<OutPoint, TxOutput>, txs: seq<Transaction>): map<OutPoint, TxOutput>
    requires |txs| >= 1
  {
    AddOutputs(m - ConsumedBy(txs[1..]), txs[1..]) + OutputsOf(txs[0].txid, txs[0].outputs)
  }

  /** `op` is an output of one of `txs`. */
  predicate CreatedBy(txs: seq<Transaction>, op: OutPoint)
  {
    exists k :: 0 <= k < |txs| && op.txid == txs[k].txid && op.vout < |txs[k].outputs|
  }

  /** Every transaction has an output count that fits a u32 index. */
  predicate OutputCountsFit(txs: seq<Transaction>)
  {
    forall k :: 0 <= k < |txs| ==> |txs[k].outputs| <= U32_LIMIT
  }

  lemma {:induction false} AddOutputsEffect(m: map<OutPoint, TxOutput>, txs: seq<Transaction>)
    requires OutputCountsFit(txs)
    ensures forall op :: op in AddOutputs(m, txs) <==> op in m || CreatedBy(txs, op)
    ensures forall op :: op in m && !CreatedBy(txs, op) ==> AddOutputs(m, txs)[op] == m[op]
  {
    if txs != [] {
      var n := |txs| - 1;
      AddOutputsEffect(m, txs[..n]);
      OutputsOfKeys(txs[n].txid, txs[n].outputs);
      forall op
        ensures CreatedBy(txs, op) <==> CreatedBy(txs[..n], op) || (op.txid == txs[n].txid && op.vout < |txs[n].outputs|)
      {
        if CreatedBy(txs, op) {
          var k :| 0 <= k < |txs| && op.txid == txs[k].txid && op.vout < |txs[k].outputs|;
          if k < n {
            assert txs[..n][k] == txs[k];
          }
        }
        if CreatedBy(txs[..n], op) {
          var k :| 0 <= k < n && op.txid == txs[..n][k].txid && op.vout < |txs[..n][k].outputs|;
          assert txs[k] == txs[..n][k];
        }
      }
    }
  }

  /** No two transactions of `txs` share a txid. */
  predicate DistinctTxids(txs: seq<Transaction>)
  {
    forall j, k :: 0 <= j < k < |txs| ==> txs[j].txid != txs[k].txid
  }

  /** With pairwise-distinct txids no output overwrites another: output i of
      transaction k is stored, unchanged, under `(txid_k, i)`. */
  lemma {:induction false} AddOutputsValues(m: map<OutPoint, TxOutput>, txs: seq<Transaction>)
    requires OutputCountsFit(txs) && DistinctTxids(txs)
    ensures forall k, i :: 0 <= k < |txs| && 0 <= i < |txs[k].outputs| ==>
              OutPoint(txs[k].txid, i) in AddOutputs(m, txs) && AddOutputs(m, txs)[OutPoint(txs[k].txid, i)] == txs[k].outputs[i]
  {
    if txs != [] {
      var n := |txs| - 1;
      var prefix := txs[..n];
      assert OutputCountsFit(prefix) by {
        forall k | 0 <= k < n ensures |prefix[k].outputs| <= U32_LIMIT {
          assert prefix[k] == txs[k];
        }
      }
      assert DistinctTxids(prefix) by {
        forall j, k | 0 <= j < k < n ensures prefix[j].txid != prefix[k].txid {
          assert prefix[j] == txs[j] && prefix[k] == txs[k];
        }
      }
      AddOutputsValues(m, prefix);
      OutputsOfKeys(txs[n].txid, txs[n].outputs);
      forall k, i | 0 <= k < n && 0 <= i < |txs[k].outputs|
        ensures OutPoint(txs[k].txid, i) in AddOutputs(m, txs)
        ensures AddOutputs(m, txs)[OutPoint(txs[k].txid, i)] == txs[k].outputs[i]
      {
        assert prefix[k] == txs[k];
        assert OutPoint(txs[k].txid, i) !in OutputsOf(txs[n].txid, txs[n].outputs);
      }
    }
  }

  /** Spent inputs out, new outputs in: after a block, an outpoint is present
      exactly when it was present and not spent by the block, or is an output
      of one of the block's transactions; an outpoint the block neither spends
      nor creates keeps its entry. */
  lemma ApplyBlockEffect(m: map<OutPoint, TxOutput>, txs: seq<Transaction>)
    requires |txs| >= 1 && OutputCountsFit(txs)
    ensures forall op :: op in ApplyBlock(m, txs) <==> (op in m && op !in ConsumedBy(txs[1..])) || CreatedBy(txs, op)
    ensures forall op :: op in m && op !in ConsumedBy(txs[1..]) && !CreatedBy(txs, op) ==> ApplyBlock(m, txs)[op] == m[op]
    ensures forall op :: op in ConsumedBy(txs[1..]) && !CreatedBy(txs, op) ==> op !in ApplyBlock(m, txs)
    ensures forall i :: 0 <= i < |txs[0].outputs| ==>
              OutPoint(txs[0].txid, i) in ApplyBlock(m, txs) && ApplyBlock(m, txs)[OutPoint(txs[0].txid, i)] == txs[0].outputs[i]
    ensures DistinctTxids(txs) ==>
              forall k, i :: 0 <= k < |txs| && 0 <= i < |txs[k].outputs| ==>
                OutPoint(txs[k].txid, i) in ApplyBlock(m, txs) && ApplyBlock(m, txs)[OutPoint(txs[k].txid, i)] == txs[k].outputs[i]
  {
    var rest := txs[1..];
    assert OutputCountsFit(rest) by {
      forall k | 0 <= k < |rest| ensures |rest[k].outputs| <= U32_LIMIT {
        assert rest[k] == txs[k + 1];
      }
    }
    AddOutputsEffect(m - ConsumedBy(rest), rest);
    OutputsOfKeys(txs[0].txid, txs[0].outputs);
    forall op
      ensures CreatedBy(txs, op) <==> CreatedBy(rest, op) || (op.txid == txs[0].txid && op.vout < |txs[0].outputs|)
    {
      if CreatedBy(txs, op) {
        var k :| 0 <= k < |txs| && op.txid == txs[k].txid && op.vout < |txs[k].outputs|;
        if k > 0 {
          assert rest[k - 1] == txs[k];
        }
      }
      if CreatedBy(rest, op) {
        var k :| 0 <= k < |rest| && op.txid == rest[k].txid && op.vout < |rest[k].outputs|;
        assert txs[k + 1] == rest[k];
      }
    }
    if DistinctTxids(txs) {
      assert DistinctTxids(rest) by {
        forall j, k | 0 <= j < k < |rest| ensures rest[j].txid != rest[k].txid {
          assert rest[j] == txs[j + 1] && rest[k] == txs[k + 1];
        }
      }
      AddOutputsValues(m - ConsumedBy(rest), rest);
      forall k, i | 1 <= k < |txs| && 0 <= i < |txs[k].outputs|
        ensures OutPoint(txs[k].txid, i) in ApplyBlock(m, txs)
        ensures ApplyBlock(m, txs)[OutPoint(txs[k].txid, i)] == txs[k].outputs[i]
      {
        assert rest[k - 1] == txs[k];
        assert OutPoint(txs[k].txid, i) !in OutputsOf(txs[0].txid, txs[0].outputs);
      }
    }
  }

  /** The txids `submit_solution` removes from the mempool: every transaction
      of the block except the coinbase. */
  function IncludedTxids(txs: seq<Transaction>): set<string>
  {
    set k | 1 <= k < |txs| :: txs[k].txid
  }

  /** `Vec::retain` keeping the transactions whose txid is not in `ids`, in
      their order. */
  function Retain(mempool: seq<Transaction>, ids: set<string>): (kept: seq<Transaction>)
    ensures |kept| <= |mempool|
    ensures forall t :: t in kept <==> t in mempool && t.txid !in ids
  {
    if mempool == [] then []
    else
      var n := |mempool| - 1;
      Retain(mempool[..n], ids) + (if mempool[n].txid in ids then [] else [mempool[n]])
  }

  /** A block holding only a one-output coinbase adds exactly that output. */
  lemma CoinbaseOnlyBlock(m: map<OutPoint, TxOutput>, cb: Transaction, o: TxOutput)
    requires cb.outputs == [o]
    ensures ApplyBlock(m, [cb]) == m[OutPoint(cb.txid, 0) := o]
  {
    assert [cb][1..] == [];
    assert [cb][0] == cb;
    assert ConsumedBy([]) == {};
    assert m - {} == m;
    assert AddOutputs(m, []) == m;
    assert cb.outputs[..0] == [];
    assert OutputsOf(cb.txid, cb.outputs) == map[OutPoint(cb.txid, 0) := o];
  }

  /** As written, a coinbase's txid ignores the height, so two blocks paying
      the same miner the same amount carry the same coinbase, and the second
      one's output overwrites the first one's unspent entry: two coinbase-only
      blocks applied to an empty set leave a single entry, one reward lost. */
  lemma SourceCoinbaseCollides(txidOf: TxidHasher, miner: string, amount: U64)
    ensures var cb := SourceCoinbase(txidOf, miner, amount);
            var once := ApplyBlock(map[], [cb]);
            ApplyBlock(once, [cb]) == once && |once| == 1
  {
    var cb := SourceCoinbase(txidOf, miner, amount);
    CoinbaseOnlyBlock(map[], cb, TxOutput(miner, amount));
    CoinbaseOnlyBlock(ApplyBlock(map[], [cb]), cb, TxOutput(miner, amount));
  }

  /** With the height committed, coinbases of different heights have
      different txids under an injective hash, so both rewards stay in the
      set. */
  lemma CoinbaseHeightsDistinct(txidOf: TxidHasher, h1: U64, h2: U64, miner: string, amount: U64)
    requires Injective(txidOf) && h1 != h2
    ensures var cb1 := Coinbase(txidOf, h1, miner, amount);
            var cb2 := Coinbase(txidOf, h2, miner, amount);
            cb1.txid != cb2.txid && |ApplyBlock(ApplyBlock(map[], [cb1]), [cb2])| == 2
  {
    var cb1 := Coinbase(txidOf, h1, miner, amount);
    var cb2 := Coinbase(txidOf, h2, miner, amount);
    assert TxidPayload.Coinbase(h1, cb1.outputs) != TxidPayload.Coinbase(h2, cb2.outputs);
    CoinbaseOnlyBlock(map[], cb1, TxOutput(miner, amount));
    CoinbaseOnlyBlock(ApplyBlock(map[], [cb1]), cb2, TxOutput(miner, amount));
    assert OutPoint(cb2.txid, 0) != OutPoint(cb1.txid, 0);
  }

  /** Under an injective hash a coinbase txid never equals the txid of a
      transaction built by `Transaction::new`, so a coinbase never overwrites
      an ordinary transaction's outputs either. */
  lemma CoinbaseTxidFresh(txidOf: TxidHasher, height: U64, miner: string, amount: U64,
                          inputs: seq<TxInput>, outputs: seq<TxOutput>)
    requires Injective(txidOf)
    ensures Coinbase(txidOf, height, miner, amount).txid != NewTransaction(txidOf, inputs, outputs).txid
  {
    assert TxidPayload.Coinbase(height, [TxOutput(miner, amount)]) != Content(inputs, outputs);
  }

  /** The block a submission for template `t` with `nonce` stands for:
      `Block::new_with_timestamp` at the template's index, previous hash,
      transactions and timestamp, with the nonce set and the hash recomputed. */
  function TemplateBlock(bh: BlockHashing, t: MiningTemplate, nonce: U64): (b: Block)
    ensures b.index == t.index && b.previousHash == t.previousHash && b.timestamp == t.timestamp
    ensures b.data == Txs(t.transactions) && b.nonce == nonce && b.hash == ComputeHash(bh, b)
  {
    WithNonce(bh, NewBlock(bh, t.index, t.previousHash, Txs(t.transactions), t.timestamp), nonce)
  }

  /** The template-building logic of `get_template`: refuse a blank miner
      address; otherwise snapshot the head, select from the mempool, build the
      capped coinbase paying the trimmed address, and store the template under
      `templateId` (a fresh UUID in the source) with timestamp `now`. */
  method GetTemplate(state: AppState, env: Env, minerAddress: string, templateId: string, now: I64)
    returns (r: Result<MiningTemplate, TemplateError>)
    requires state.Valid()
    modifies state`miningTemplates
    ensures state.Valid()
    ensures r.Err? <==> Trim(minerAddress) == []
    ensures r.Err? ==> state.miningTemplates == old(state.miningTemplates)
    ensures r.Ok? ==>
              var miner := Trim(minerAddress);
              var sel := Select(env.vsize, env.maxTxsPerBlock, env.maxBlockBytes, state.utxoSet.entries, state.mempool);
              var index := |state.blockchain.chain| % U64_LIMIT;
              && r.value == MiningTemplate(templateId, index, state.blockchain.LastBlock().hash, now,
                                           state.blockchain.difficulty, miner,
                                           [SourceCoinbase(env.txidOf, miner, CoinbaseAmount(env.baseReward, sel.totalFees))] + sel.picked)
              && state.miningTemplates == old(state.miningTemplates)[templateId := r.value]
  {
    var miner := Trim(minerAddress);
    if |miner| == 0 {
      return Err(MinerAddressRequired);
    }
    var index := state.blockchain.Len() % U64_LIMIT;
    var previousHash := state.blockchain.LastBlock().hash;
    var difficulty := state.blockchain.Difficulty();
    var mempoolSnapshot := state.mempool;
    var selected, totalFees := SelectTransactions(env, mempoolSnapshot, state.utxoSet);
    var amount := CoinbaseAmount(env.baseReward, totalFees);
    var coinbase := SourceCoinbase(env.txidOf, miner, amount);
    var txs := [coinbase] + selected;
    var template := MiningTemplate(templateId, index, previousHash, now, difficulty, miner, txs);
    state.miningTemplates := state.miningTemplates[templateId := template];
    return Ok(template);
  }

  /** A template's coinbase leads its list, spends nothing and pays the miner
      the capped reward; the rest is the fee-rate selection. */
  lemma TemplateShape(state: AppState, env: Env, t: MiningTemplate)
    requires |t.transactions| >= 1
    requires t.transactions == [SourceCoinbase(env.txidOf, t.minerAddress, CoinbaseAmount(env.baseReward,
                 Select(env.vsize, env.maxTxsPerBlock, env.maxBlockBytes, state.utxoSet.entries, state.mempool).totalFees))]
               + Select(env.vsize, env.maxTxsPerBlock, env.maxBlockBytes, state.utxoSet.entries, state.mempool).picked
    ensures CoinbaseFirst(t)
    ensures t.transactions[0].outputs[0].amount >= env.baseReward
    ensures NoSharedOutpoint(t.transactions[1..])
  {
    var sel := Select(env.vsize, env.maxTxsPerBlock, env.maxBlockBytes, state.utxoSet.entries, state.mempool);
    SelectCorrect(env.vsize, env.maxTxsPerBlock, env.maxBlockBytes, state.utxoSet.entries, state.mempool);
    assert t.transactions[1..] == sel.picked;
  }

  /** The spend loops of `submit_solution`: every input of every transaction
      in `txs` is spent, in order. */
  method SpendInputs(utxo: UtxoSet, txs: seq<Transaction>)
    modifies utxo
    ensures utxo.entries == old(utxo.entries) - ConsumedBy(txs)
  {
    var i := 0;
    while i < |txs|
      invariant 0 <= i <= |txs|
      invariant utxo.entries == old(utxo.entries) - ConsumedBy(txs[..i])
    {
      var ins := txs[i].inputs;
      var j := 0;
      while j < |ins|
        invariant 0 <= j <= |ins|
        invariant utxo.entries == old(utxo.entries) - ConsumedBy(txs[..i]) - OutpointSet(ins[..j])
      {
        var _ := utxo.Spend(ins[j].outpoint);
        assert OutpointSet(ins[..j + 1]) == OutpointSet(ins[..j]) + {ins[j].outpoint} by {
          assert forall k :: 0 <= k < j ==> ins[..j + 1][k] == ins[..j][k];
        }
        j := j + 1;
      }
      assert ins[..j] == ins;
      assert txs[..i + 1][..i] == txs[..i];
      i := i + 1;
    }
    assert txs[..i] == txs;
  }

  /** The output loop: `add_tx_outputs` for each transaction in order. */
  method AddAllOutputs(utxo: UtxoSet, txs: seq<Transaction>)
    modifies utxo
    ensures utxo.entries == AddOutputs(old(utxo.entries), txs)
  {
    var i := 0;
    while i < |txs|
      invariant 0 <= i <= |txs|
      invariant utxo.entries == AddOutputs(old(utxo.entries), txs[..i])
    {
      utxo.AddTxOutputs(txs[i]);
      assert txs[..i + 1][..i] == txs[..i];
      i := i + 1;
    }
    assert txs[..i] == txs;
  }

  /** The UTXO update of an accepted block. */
  method ApplyBlockTo(utxo: UtxoSet, txs: seq<Transaction>)
    requires |txs| >= 1
    modifies utxo
    ensures utxo.entries == ApplyBlock(old(utxo.entries), txs)
  {
    SpendInputs(utxo, txs[1..]);
    AddAllOutputs(utxo, txs[1..]);
    utxo.AddTxOutputs(txs[0]);
  }

  /** The consume/stale/mismatch/work/apply logic of `submit_solution`. The
      template is removed whatever the outcome, so it is consumed at most
      once. A refusal leaves the chain, the UTXO set and the mempool as they
      were; acceptance appends the template's block, applies it to the UTXO
      set and drops its non-coinbase txids from the mempool. */
  method SubmitSolution(state: AppState, env: Env, templateId: string, nonce: U64, hash: string)
    returns (r: Result<Accepted, SubmitError>)
    requires state.Valid()
    modifies state`miningTemplates, state`mempool, state.blockchain, state.utxoSet
    ensures state.Valid()
    ensures state.miningTemplates == old(state.miningTemplates) - {templateId}
    ensures templateId !in old(state.miningTemplates) ==> r == Err(UnknownTemplate)
    ensures templateId in old(state.miningTemplates) ==>
              var t := old(state.miningTemplates[templateId]);
              var b := TemplateBlock(env.blockHashing, t, nonce);
              && (t.previousHash != old(state.blockchain.LastBlock().hash) ==> r == Err(Stale))
              && (t.previousHash == old(state.blockchain.LastBlock().hash) && b.hash != hash ==> r == Err(HashMismatch))
              && ((t.previousHash == old(state.blockchain.LastBlock().hash) && b.hash == hash
                    && !IsValid(env.blockHashing, b, state.blockchain.difficulty)) ==> r == Err(InsufficientWork))
              && (r.Ok? ==>
                    && state.blockchain.chain == old(state.blockchain.chain) + [b]
                    && state.utxoSet.entries == ApplyBlock(old(state.utxoSet.entries), t.transactions)
                    && state.mempool == Retain(old(state.mempool), IncludedTxids(t.transactions))
                    && r.value == Accepted(|old(state.blockchain.chain)|, hash, state.blockchain.difficulty))
    ensures r.Ok? <==>
              && templateId in old(state.miningTemplates)
              && var b := TemplateBlock(env.blockHashing, old(state.miningTemplates[templateId]), nonce);
                 && b.previousHash == old(state.blockchain.LastBlock().hash)
                 && b.hash == hash
                 && IsValid(env.blockHashing, b, state.blockchain.difficulty)
    ensures r.Err? ==>
              && state.blockchain.chain == old(state.blockchain.chain)
              && state.utxoSet.entries == old(state.utxoSet.entries)
              && state.mempool == old(state.mempool)
    ensures state.blockchain.difficulty == old(state.blockchain.difficulty)
    ensures ChainValid(env.blockHashing, old(state.blockchain.chain), state.blockchain.difficulty) ==>
              ChainValid(env.blockHashing, state.blockchain.chain, state.blockchain.difficulty)
  {
    if templateId !in state.miningTemplates {
      return Err(UnknownTemplate);
    }
    var template := state.miningTemplates[templateId];
    state.miningTemplates := state.miningTemplates - {templateId};
    if state.blockchain.LastBlock().hash != template.previousHash {
      return Err(Stale);
    }
    var block := NewBlock(env.blockHashing, template.index, template.previousHash, Txs(template.transactions), template.timestamp);
    block := block.(nonce := nonce);
    block := block.(hash := ComputeHash(env.blockHashing, block));
    assert block == TemplateBlock(env.blockHashing, template, nonce);
    if block.hash != hash {
      return Err(HashMismatch);
    }
    if !IsValid(env.blockHashing, block, state.blockchain.Difficulty()) {
      return Err(InsufficientWork);
    }
    var appended := state.blockchain.AppendPremined(env.blockHashing, block);
    assert appended.Ok?;
    var included := IncludedTxids(template.transactions);
    ApplyBlockTo(state.utxoSet, template.transactions);
    state.mempool := Retain(state.mempool, included);
    var height := state.blockchain.Len();
    return Ok(Accepted(height - 1, hash, state.blockchain.Difficulty()));
  }
}
