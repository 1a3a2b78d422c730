/** The per-address balance of src/api/balance.rs: one pass over the UTXO
    entries adding up the amounts, and counting the entries, that pay the
    queried address. */
module BalanceApi {
  import opened Common
  import opened TxModel
  import opened Utxo
  import opened Ledger

  /** What entry `op` contributes to `address`'s balance. */
  function Owned(m: map<OutPoint, TxOutput>, op: OutPoint, address: string): nat
    requires op in m
  {
    if m[op].address == address then m[op].amount else 0
  }

  /** The amounts paying `address` over the entries `keys`, in no particular
      order (the map's iteration order is unspecified). */
  ghost function AmountOwned(m: map<OutPoint, TxOutput>, keys: set<OutPoint>, address: string): nat
    requires keys <= m.Keys
    decreases keys
  {
    if keys == {} then 0
    else
      var op :| op in keys;
      Owned(m, op, address) + AmountOwned(m, keys - {op}, address)
  }

  /** The entries paying `address`. */
  function OwnedKeys(m: map<OutPoint, TxOutput>, address: string): set<OutPoint>
  {
    set op | op in m && m[op].address == address
  }

  /** Any entry can be taken out first: the total does not depend on the
      order in which the map is walked. */
  lemma {:induction false} AmountOwnedSplit(m: map<OutPoint, TxOutput>, keys: set<OutPoint>, op: OutPoint, address: string)
    requires keys <= m.Keys && op in keys
    ensures AmountOwned(m, keys, address) == Owned(m, op, address) + AmountOwned(m, keys - {op}, address)
    decreases keys
  {
    var first :| first in keys && AmountOwned(m, keys, address) == Owned(m, first, address) + AmountOwned(m, keys - {first}, address);
    if first != op {
      AmountOwnedSplit(m, keys - {first}, op, address);
      AmountOwnedSplit(m, keys - {op}, first, address);
      assert keys - {first} - {op} == keys - {op} - {first};
    }
  }

  /** Each entry contributes at most `u64::MAX`, so the u128 accumulator of
      the source cannot overflow below 2^64 entries. */
  lemma {:induction false} AmountOwnedBound(m: map<OutPoint, TxOutput>, keys: set<OutPoint>, address: string)
    requires keys <= m.Keys
    ensures AmountOwned(m, keys, address) <= |keys| * U64_MAX
    ensures |keys| < U64_LIMIT ==> AmountOwned(m, keys, address) < U128_LIMIT
    decreases keys
  {
    if keys != {} {
      var op :| op in keys;
      AmountOwnedSplit(m, keys, op, address);
      AmountOwnedBound(m, keys - {op}, address);
      assert (|keys| - 1) * U64_MAX + U64_MAX == |keys| * U64_MAX;
    }
    if |keys| < U64_LIMIT {
      MulMonotone(|keys|, U64_MAX, U64_MAX);
    }
  }

  /** An address no entry pays has balance 0. */
  lemma {:induction false} NoEntriesNoBalance(m: map<OutPoint, TxOutput>, keys: set<OutPoint>, address: string)
    requires keys <= m.Keys
    requires forall op :: op in keys ==> m[op].address != address
    ensures AmountOwned(m, keys, address) == 0
    decreases keys
  {
    if keys != {} {
      var op :| op in keys;
      AmountOwnedSplit(m, keys, op, address);
      NoEntriesNoBalance(m, keys - {op}, address);
    }
  }

  /** The fold of `get_balance`: the sum of the amounts of the entries paying
      `address` and the number of those entries. The UTXO set is only read. */
  method GetBalance(state: AppState, address: string) returns (balance: nat, utxos: nat)
    ensures balance == AmountOwned(state.utxoSet.entries, state.utxoSet.entries.Keys, address)
    ensures utxos == |OwnedKeys(state.utxoSet.entries, address)|
    ensures utxos == 0 ==> balance == 0
    ensures balance < U128_LIMIT || |state.utxoSet.entries| >= U64_LIMIT
  {
    var view := state.utxoSet.Iter();
    var remaining := view.Keys;
    balance, utxos := 0, 0;
    while remaining != {}
      invariant remaining <= view.Keys
      invariant balance + AmountOwned(view, remaining, address) == AmountOwned(view, view.Keys, address)
      invariant utxos == |set op | op in view.Keys - remaining && view[op].address == address|
      decreases |remaining|
    {
      var op :| op in remaining;
      ghost var seenBefore := set k | k in view.Keys - remaining && view[k].address == address;
      AmountOwnedSplit(view, remaining, op, address);
      if view[op].address == address {
        balance := balance + view[op].amount;
        utxos := utxos + 1;
        assert (set k | k in view.Keys - (remaining - {op}) && view[k].address == address) == seenBefore + {op};
      } else {
        assert (set k | k in view.Keys - (remaining - {op}) && view[k].address == address) == seenBefore;
      }
      remaining := remaining - {op};
    }
    assert (set op | op in view.Keys - remaining && view[op].address == address) == OwnedKeys(view, address);
    if utxos == 0 {
      NoEntriesNoBalance(view, view.Keys, address);
    }
    AmountOwnedBound(view, view.Keys, address);
  }
}
