/** The transaction value type (src/transaction/model.rs) together with the
    output reference it spends (`OutPoint`, declared in src/transaction/utxo.rs).
    SHA-256 with serde_json serialisation and hex encoding is a foreign call here:
    it enters as a function-typed parameter over the structured payload that the
    source serialises, so nothing is assumed about it unless a lemma says so. */
module TxModel {
  import opened Common

  /** Names one output of one transaction. Equality is the datatype's own,
      componentwise on `(txid, vout)`. */
  datatype OutPoint = OutPoint(txid: string, vout: U32)

  /** Spends one prior output; `pubkey` and `signature` are hex strings. */
  datatype TxInput = TxInput(outpoint: OutPoint, pubkey: string, signature: string)

  datatype TxOutput = TxOutput(address: string, amount: U64)

  datatype Transaction = Transaction(txid: string, inputs: seq<TxInput>, outputs: seq<TxOutput>)

  /** What is serialised and hashed into a txid. `Content` is the payload of
      `Transaction::new`: full inputs (pubkeys and signatures included) and outputs.
      `Coinbase` is the height-committing payload of the corrected coinbase (see
      `MiningApi.Coinbase`); the source has no such payload. */
  datatype TxidPayload =
    | Content(inputs: seq<TxInput>, outputs: seq<TxOutput>)
    | Coinbase(height: U64, outputs: seq<TxOutput>)

  /** What `signing_payload` serialises: only the outpoints and the outputs. */
  datatype SigningPayload = SigningPayload(outpoints: seq<OutPoint>, outputs: seq<TxOutput>)

  /** A SHA-256 digest; its fixed length of 32 bytes is not stated here. */
  type Digest = seq<U8>

  /** hex(SHA-256(JSON(payload))), the txid. */
  type TxidHasher = TxidPayload -> string

  /** SHA-256(JSON(payload)), the 32-byte message an owner signs. */
  type SighashHasher = SigningPayload -> Digest

  ghost predicate Injective<A(!new), B>(f: A -> B)
  {
    forall x, y :: f(x) == f(y) ==> x == y
  }

  /** `Transaction::new`: the txid is recomputed from the content, never supplied. */
  function NewTransaction(txidOf: TxidHasher, inputs: seq<TxInput>, outputs: seq<TxOutput>): (tx: Transaction)
    ensures tx.inputs == inputs && tx.outputs == outputs
  {
    Transaction(txidOf(Content(inputs, outputs)), inputs, outputs)
  }

  /** The txid of a built transaction depends on its inputs and outputs alone:
      two constructions from the same content are the same transaction. */
  lemma NewTransactionDeterministic(txidOf: TxidHasher, a: Transaction, b: Transaction)
    requires a == NewTransaction(txidOf, a.inputs, a.outputs)
    requires b == NewTransaction(txidOf, b.inputs, b.outputs)
    requires a.inputs == b.inputs && a.outputs == b.outputs
    ensures a.txid == b.txid && a == b
  {
  }

  /** `total_output_amount` (summed in u128), folded from the left as the
      iterator sum does. */
  function OutputSum(outs: seq<TxOutput>): (total: nat)
    ensures outs == [] ==> total == 0
    ensures forall i :: 0 <= i < |outs| ==> outs[i].amount <= total
  {
    if outs == [] then 0 else OutputSum(outs[..|outs| - 1]) + outs[|outs| - 1].amount
  }

  lemma {:induction false} OutputSumBound(outs: seq<TxOutput>)
    ensures OutputSum(outs) <= |outs| * U64_MAX
  {
    if outs != [] {
      var n := |outs|;
      OutputSumBound(outs[..n - 1]);
      assert (n - 1) * U64_MAX + U64_MAX == n * U64_MAX;
    }
  }

  /** The u128 accumulator of `total_output_amount` cannot overflow: every
      amount is below 2^64 and a vector holds fewer than 2^64 elements. */
  lemma OutputSumFitsU128(outs: seq<TxOutput>)
    requires |outs| < U64_LIMIT
    ensures OutputSum(outs) < U128_LIMIT
  {
    OutputSumBound(outs);
    MulMonotone(|outs|, U64_MAX, U64_MAX);
  }

  lemma MulMonotone(a: nat, b: nat, c: nat)
    requires a <= b
    ensures a * c <= b * c
  {
  }

  /** The outpoints of a list of inputs, in order. */
  function Outpoints(ins: seq<TxInput>): (ops: seq<OutPoint>)
    ensures |ops| == |ins|
    ensures forall i :: 0 <= i < |ins| ==> ops[i] == ins[i].outpoint
  {
    if ins == [] then [] else [ins[0].outpoint] + Outpoints(ins[1..])
  }

  /** The set of outpoints a list of inputs spends. */
  function OutpointSet(ins: seq<TxInput>): set<OutPoint>
  {
    set i | 0 <= i < |ins| :: ins[i].outpoint
  }

  /** `signing_payload`: the outputs and, per input in order, only its
      outpoint, no pubkey and no signature. */
  function SigningPayloadOf(tx: Transaction): (p: SigningPayload)
    ensures p.outputs == tx.outputs && |p.outpoints| == |tx.inputs|
    ensures forall i :: 0 <= i < |tx.inputs| ==> p.outpoints[i] == tx.inputs[i].outpoint
  {
    SigningPayload(Outpoints(tx.inputs), tx.outputs)
  }

  /** The inputs with their pubkeys and signatures blanked. */
  function Unsigned(ins: seq<TxInput>): (r: seq<TxInput>)
    ensures |r| == |ins|
    ensures forall i :: 0 <= i < |ins| ==> r[i] == TxInput(ins[i].outpoint, "", "")
  {
    seq(|ins|, i requires 0 <= i < |ins| => TxInput(ins[i].outpoint, "", ""))
  }

  /** `sighash`: the hash of the signing payload, which is the digest of the
      same transaction with every witness blanked, so a signature can sign it
      without signing itself. */
  function Sighash(sighashOf: SighashHasher, tx: Transaction): (d: Digest)
    ensures d == sighashOf(SigningPayloadOf(tx.(inputs := Unsigned(tx.inputs))))
  {
    assert Outpoints(Unsigned(tx.inputs)) == Outpoints(tx.inputs);
    sighashOf(SigningPayloadOf(tx))
  }

  /** Replacing any input's pubkey or signature leaves the signing payload, and
      so the sighash, unchanged: it depends only on the outpoints and outputs. */
  lemma SighashIgnoresWitnesses(sighashOf: SighashHasher, tx: Transaction, tx': Transaction)
    requires tx'.outputs == tx.outputs && |tx'.inputs| == |tx.inputs|
    requires forall i :: 0 <= i < |tx.inputs| ==> tx'.inputs[i].outpoint == tx.inputs[i].outpoint
    ensures SigningPayloadOf(tx') == SigningPayloadOf(tx)
    ensures Sighash(sighashOf, tx') == Sighash(sighashOf, tx)
  {
    assert Outpoints(tx'.inputs) == Outpoints(tx.inputs);
  }

  /** The txid commits to the witnesses and the sighash does not: re-signing
      input k with a different pubkey or signature keeps the sighash but, for an
      injective hash, changes the txid. */
  lemma TxidCommitsToWitnesses(txidOf: TxidHasher, sighashOf: SighashHasher,
                               inputs: seq<TxInput>, outputs: seq<TxOutput>,
                               k: nat, pubkey: string, signature: string)
    requires k < |inputs|
    requires (pubkey, signature) != (inputs[k].pubkey, inputs[k].signature)
    requires Injective(txidOf)
    ensures var tx := NewTransaction(txidOf, inputs, outputs);
            var tx' := NewTransaction(txidOf, inputs[k := inputs[k].(pubkey := pubkey, signature := signature)], outputs);
            Sighash(sighashOf, tx') == Sighash(sighashOf, tx) && tx'.txid != tx.txid
  {
    var inputs' := inputs[k := inputs[k].(pubkey := pubkey, signature := signature)];
    var tx := NewTransaction(txidOf, inputs, outputs);
    var tx' := NewTransaction(txidOf, inputs', outputs);
    SighashIgnoresWitnesses(sighashOf, tx, tx');
    assert inputs'[k] != inputs[k];
    assert Content(inputs', outputs) != Content(inputs, outputs);
  }
}
