/** The UTXO store of src/transaction/utxo.rs: a key-value map from outpoint to
    output, mutated in place. No economics or ownership policy lives here. */
module Utxo {
  import opened Common
  import opened TxModel

  /** The entries `add_tx_outputs` writes for outputs `outs` of a transaction
      `txid`, in loop order: output i goes to `(txid, i as u32)`, a later index
      overwriting an earlier one should the cast wrap. */
  function OutputsOf(txid: string, outs: seq<TxOutput>): map<OutPoint, TxOutput>
  {
    if outs == [] then map[]
    else
      var n := |outs| - 1;
      OutputsOf(txid, outs[..n])[OutPoint(txid, n % U32_LIMIT) := outs[n]]
  }

  /** While the output count fits a u32, output i is keyed exactly by
      `(txid, i)` and no other key is written. */
  lemma {:induction false} OutputsOfKeys(txid: string, outs: seq<TxOutput>)
    requires |outs| <= U32_LIMIT
    ensures forall op :: op in OutputsOf(txid, outs) <==> op.txid == txid && op.vout < |outs|
    ensures forall i :: 0 <= i < |outs| ==> OutPoint(txid, i) in OutputsOf(txid, outs)
    ensures forall i :: 0 <= i < |outs| ==> OutputsOf(txid, outs)[OutPoint(txid, i)] == outs[i]
  {
    if outs != [] {
      var n := |outs| - 1;
      OutputsOfKeys(txid, outs[..n]);
      assert n % U32_LIMIT == n;
      forall i | 0 <= i < n
        ensures OutputsOf(txid, outs)[OutPoint(txid, i)] == outs[i]
      {
        assert outs[..n][i] == outs[i];
      }
    }
  }

  /** The amount stored at `op`, or 0 when it is absent. */
  function AmountAt(entries: map<OutPoint, TxOutput>, op: OutPoint): nat
  {
    if op in entries then entries[op].amount else 0
  }

  /** The total amount a list of inputs references in `entries`, folded from
      the left as the `input_sum` loops do (an absent outpoint counts 0; the
      loops stop before reaching one). */
  function ReferencedAmount(entries: map<OutPoint, TxOutput>, ins: seq<TxInput>): nat
  {
    if ins == [] then 0
    else ReferencedAmount(entries, ins[..|ins| - 1]) + AmountAt(entries, ins[|ins| - 1].outpoint)
  }

  /** The same total, unfolded from the front. */
  lemma {:induction false} ReferencedAmountCons(entries: map<OutPoint, TxOutput>, ins: seq<TxInput>)
    requires ins != []
    ensures ReferencedAmount(entries, ins) == AmountAt(entries, ins[0].outpoint) + ReferencedAmount(entries, ins[1..])
  {
    var n := |ins|;
    if n == 1 {
      assert ins[..n - 1] == [] && ins[1..] == [];
    } else {
      ReferencedAmountCons(entries, ins[..n - 1]);
      assert ins[..n - 1][0] == ins[0];
      assert ins[..n - 1][1..] == ins[1..][..n - 2];
      assert ins[1..][n - 2] == ins[n - 1];
    }
  }

  class UtxoSet {
    /** The private `map` field of the source. */
    var entries: map<OutPoint, TxOutput>

    /** `UtxoSet::new`. */
    constructor ()
      ensures entries == map[]
    {
      entries := map[];
    }

    /** The stored output of `op`, if any. */
    function Get(op: OutPoint): (r: Option<TxOutput>)
      reads this
      ensures r.Some? <==> op in entries
      ensures r.Some? ==> r.value == entries[op]
    {
      if op in entries then Some(entries[op]) else None
    }

    /** Holds exactly when `Get` finds an entry. */
    function Contains(op: OutPoint): (b: bool)
      reads this
      ensures b <==> Get(op).Some?
    {
      op in entries
    }

    /** The number of entries. */
    function Len(): (n: nat)
      reads this
      ensures n == |entries|
    {
      |entries|
    }

    /** Empty exactly when the length is zero. */
    function IsEmpty(): (b: bool)
      reads this
      ensures b <==> Len() == 0
    {
      entries == map[]
    }

    /** The read-only view `iter` walks: each stored entry exactly once. */
    function Iter(): (view: map<OutPoint, TxOutput>)
      reads this
      ensures forall op :: Get(op) == (if op in view then Some(view[op]) else None)
    {
      entries
    }

    /** Insert or overwrite one entry. */
    method Insert(op: OutPoint, output: TxOutput)
      modifies this
      ensures entries == old(entries)[op := output]
      ensures Get(op) == Some(output)
      ensures forall k :: k != op ==> Get(k) == old(Get(k))
    {
      entries := entries[op := output];
    }

    /** Remove and return; an absent key yields `None` and changes nothing. */
    method Spend(op: OutPoint) returns (prior: Option<TxOutput>)
      modifies this
      ensures prior == old(Get(op))
      ensures entries == old(entries) - {op}
      ensures !Contains(op)
      ensures prior.None? ==> entries == old(entries)
    {
      prior := Get(op);
      entries := entries - {op};
    }

    /** Insert one entry per output of `tx`, as applying a mined block does. */
    method AddTxOutputs(tx: Transaction)
      modifies this
      ensures entries == old(entries) + OutputsOf(tx.txid, tx.outputs)
    {
      var i := 0;
      while i < |tx.outputs|
        invariant 0 <= i <= |tx.outputs|
        invariant entries == old(entries) + OutputsOf(tx.txid, tx.outputs[..i])
      {
        var op := OutPoint(tx.txid, i % U32_LIMIT);
        Insert(op, tx.outputs[i]);
        assert tx.outputs[..i + 1][..i] == tx.outputs[..i];
        assert OutputsOf(tx.txid, tx.outputs[..i + 1]) == OutputsOf(tx.txid, tx.outputs[..i])[op := tx.outputs[i]];
        i := i + 1;
      }
      assert tx.outputs[..i] == tx.outputs;
    }
  }

  /** `add_tx_outputs` maps `(tx.txid, i)` to `tx.outputs[i]` for every output
      and leaves every key outside the transaction's outputs as it was. */
  lemma AddTxOutputsEffect(before: map<OutPoint, TxOutput>, tx: Transaction)
    requires |tx.outputs| <= U32_LIMIT
    ensures var after := before + OutputsOf(tx.txid, tx.outputs);
            && (forall i :: 0 <= i < |tx.outputs| ==> OutPoint(tx.txid, i) in after && after[OutPoint(tx.txid, i)] == tx.outputs[i])
            && (forall op: OutPoint :: op.txid != tx.txid || op.vout >= |tx.outputs| ==>
                  (op in after <==> op in before) && (op in before ==> after[op] == before[op]))
  {
    OutputsOfKeys(tx.txid, tx.outputs);
  }
}
