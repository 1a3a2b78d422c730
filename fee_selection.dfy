/** The greedy block-filling selector `select_transactions` of
    src/api/mining.rs: collect the mempool transactions that are fully funded
    by the UTXO snapshot, order them by fee rate, then fee, then txid, and walk
    that order keeping every candidate that fits the count and byte limits and
    claims no outpoint already claimed. */
module FeeSelection {
  import opened Common
  import opened TxModel
  import opened Utxo
  import opened StringOrder
  import opened Ledger

  /** A fundable mempool entry: its index, txid, fee and virtual size. */
  datatype Cand = Cand(idx: nat, txid: string, fee: nat, size: nat)

  /** `fee / size` computed exactly; 0 for a zero size. */
  function FeeRate(c: Cand): real
  {
    if c.size > 0 then c.fee as real / c.size as real else 0.0
  }

  /** The sort order: higher fee rate first, then higher fee, then smaller
      txid. The standard sort is stable, so candidates equal on all three keep
      their mempool order; the index is the last key. */
  predicate Before(a: Cand, b: Cand)
  {
    || FeeRate(a) > FeeRate(b)
    || (FeeRate(a) == FeeRate(b) &&
         (|| a.fee > b.fee
          || (a.fee == b.fee &&
               (|| StrLess(a.txid, b.txid)
                || (a.txid == b.txid && a.idx < b.idx)))))
  }

  lemma BeforeAsymmetric(a: Cand, b: Cand)
    ensures Before(a, b) ==> !Before(b, a)
  {
    StrLessAsymmetric(a.txid, b.txid);
    StrLessIrreflexive(a.txid);
  }

  /** "Not after" is transitive, so sorted order is well defined. */
  lemma NotAfterTransitive(a: Cand, b: Cand, c: Cand)
    ensures !Before(b, a) && !Before(c, b) ==> !Before(c, a)
  {
    StrLessTotal(a.txid, b.txid);
    StrLessTotal(b.txid, c.txid);
    StrLessTotal(a.txid, c.txid);
    StrLessTransitive(a.txid, b.txid, c.txid);
    StrLessTransitive(c.txid, b.txid, a.txid);
    StrLessAsymmetric(a.txid, c.txid);
    StrLessIrreflexive(a.txid);
  }

  predicate Sorted(cs: seq<Cand>)
  {
    forall i, j :: 0 <= i < j < |cs| ==> !Before(cs[j], cs[i])
  }

  function Insert(c: Cand, cs: seq<Cand>): seq<Cand>
  {
    if cs == [] then [c]
    else if Before(cs[0], c) then [cs[0]] + Insert(c, cs[1..])
    else [c] + cs
  }

  /** The stable `sort_by` over the candidate list. */
  function SortCands(cs: seq<Cand>): seq<Cand>
  {
    if cs == [] then [] else Insert(cs[0], SortCands(cs[1..]))
  }

  lemma {:induction false} InsertPermutes(c: Cand, cs: seq<Cand>)
    ensures multiset(Insert(c, cs)) == multiset(cs) + multiset{c}
  {
    if cs != [] && Before(cs[0], c) {
      InsertPermutes(c, cs[1..]);
      assert cs == [cs[0]] + cs[1..];
    }
  }

  /** A candidate placed before everything in `cs` heads a sorted list. */
  lemma ConsSorted(c: Cand, cs: seq<Cand>)
    requires Sorted(cs)
    requires forall j :: 0 <= j < |cs| ==> !Before(cs[j], c)
    ensures Sorted([c] + cs)
  {
    var r := [c] + cs;
    forall i, j | 0 <= i < j < |r|
      ensures !Before(r[j], r[i])
    {
      assert r[j] == cs[j - 1];
      if i > 0 {
        assert r[i] == cs[i - 1];
      }
    }
  }

  lemma {:induction false} InsertSorted(c: Cand, cs: seq<Cand>)
    requires Sorted(cs)
    ensures Sorted(Insert(c, cs))
  {
    if cs == [] {
    } else if Before(cs[0], c) {
      var rest := Insert(c, cs[1..]);
      assert Sorted(cs[1..]) by {
        forall i, j | 0 <= i < j < |cs[1..]|
          ensures !Before(cs[1..][j], cs[1..][i])
        {
          assert cs[1..][j] == cs[j + 1] && cs[1..][i] == cs[i + 1];
        }
      }
      InsertSorted(c, cs[1..]);
      InsertPermutes(c, cs[1..]);
      forall j | 0 <= j < |rest|
        ensures !Before(rest[j], cs[0])
      {
        assert rest[j] in multiset(rest);
        if rest[j] == c {
          BeforeAsymmetric(cs[0], c);
        } else {
          assert rest[j] in multiset(cs[1..]);
          var m :| 0 <= m < |cs[1..]| && cs[1..][m] == rest[j];
          assert cs[m + 1] == rest[j];
        }
      }
      ConsSorted(cs[0], rest);
    } else {
      forall j | 0 <= j < |cs|
        ensures !Before(cs[j], c)
      {
        NotAfterTransitive(c, cs[0], cs[j]);
      }
      ConsSorted(c, cs);
    }
  }

  /** Sorting keeps exactly the candidates and orders them. */
  lemma {:induction false} SortCandsCorrect(cs: seq<Cand>)
    ensures multiset(SortCands(cs)) == multiset(cs)
    ensures Sorted(SortCands(cs))
  {
    if cs != [] {
      SortCandsCorrect(cs[1..]);
      InsertSorted(cs[0], SortCands(cs[1..]));
      InsertPermutes(cs[0], SortCands(cs[1..]));
      assert cs == [cs[0]] + cs[1..];
    }
  }

  /** Every input of `tx` is in the snapshot. */
  predicate AllInputsPresent(utxo: map<OutPoint, TxOutput>, tx: Transaction)
  {
    forall i :: 0 <= i < |tx.inputs| ==> tx.inputs[i].outpoint in utxo
  }

  /** What a mempool entry needs to become a candidate: at least one input,
      every input in the snapshot, and inputs covering the outputs. */
  predicate Eligible(utxo: map<OutPoint, TxOutput>, tx: Transaction)
  {
    && |tx.inputs| > 0
    && AllInputsPresent(utxo, tx)
    && ReferencedAmount(utxo, tx.inputs) >= OutputSum(tx.outputs)
  }

  /** `input_sum - output_sum`. */
  function Fee(utxo: map<OutPoint, TxOutput>, tx: Transaction): int
  {
    ReferencedAmount(utxo, tx.inputs) - OutputSum(tx.outputs)
  }

  /** The candidate loop over the first `n` mempool entries, in index order. */
  function Candidates(vsize: Transaction -> nat, utxo: map<OutPoint, TxOutput>, mempool: seq<Transaction>, n: nat): seq<Cand>
    requires n <= |mempool|
  {
    if n == 0 then []
    else
      var tx := mempool[n - 1];
      Candidates(vsize, utxo, mempool, n - 1)
      + (if Eligible(utxo, tx) then [Cand(n - 1, tx.txid, Fee(utxo, tx), vsize(tx))] else [])
  }

  /** `c` faithfully describes mempool entry `c.idx`. */
  predicate Describes(vsize: Transaction -> nat, utxo: map<OutPoint, TxOutput>, mempool: seq<Transaction>, c: Cand)
  {
    && c.idx < |mempool|
    && Eligible(utxo, mempool[c.idx])
    && c.txid == mempool[c.idx].txid
    && c.fee == Fee(utxo, mempool[c.idx])
    && c.size == vsize(mempool[c.idx])
  }

  /** Every candidate describes an eligible entry, indices strictly increase,
      and an entry below `n` is a candidate exactly when it is eligible: an
      entry failing a check is discarded whole. */
  lemma {:induction false} CandidatesSound(vsize: Transaction -> nat, utxo: map<OutPoint, TxOutput>, mempool: seq<Transaction>, n: nat)
    requires n <= |mempool|
    ensures forall c :: c in Candidates(vsize, utxo, mempool, n) ==> Describes(vsize, utxo, mempool, c) && c.idx < n
    ensures forall i, j :: 0 <= i < j < |Candidates(vsize, utxo, mempool, n)| ==>
              Candidates(vsize, utxo, mempool, n)[i].idx < Candidates(vsize, utxo, mempool, n)[j].idx
    ensures forall k :: 0 <= k < n ==>
              (Eligible(utxo, mempool[k]) <==> exists c :: c in Candidates(vsize, utxo, mempool, n) && c.idx == k)
  {
    if n > 0 {
      CandidatesSound(vsize, utxo, mempool, n - 1);
      var tx := mempool[n - 1];
      if Eligible(utxo, tx) {
        var c := Cand(n - 1, tx.txid, Fee(utxo, tx), vsize(tx));
        assert c in Candidates(vsize, utxo, mempool, n);
      }
    }
  }

  /** The walk's running state: `picked`, `consumed`, `total_fees`,
      `total_bytes`. */
  datatype Selection = Selection(picked: seq<Transaction>, consumed: set<OutPoint>, totalFees: nat, totalBytes: nat)

  /** One turn of the greedy walk. A full block ignores every further
      candidate (the source breaks out of the loop); a candidate that would
      exceed the byte limit, or that claims an outpoint already claimed, is
      skipped. */
  function Step(mempool: seq<Transaction>, maxTxs: nat, maxBytes: nat, st: Selection, c: Cand): Selection
    requires c.idx < |mempool|
  {
    var tx := mempool[c.idx];
    if |st.picked| >= maxTxs then st
    else if st.totalBytes + c.size > maxBytes then st
    else if !(OutpointSet(tx.inputs) !! st.consumed) then st
    else Selection(st.picked + [tx], st.consumed + OutpointSet(tx.inputs), st.totalFees + c.fee, st.totalBytes + c.size)
  }

  function Walk(mempool: seq<Transaction>, maxTxs: nat, maxBytes: nat, cs: seq<Cand>): Selection
    requires forall c :: c in cs ==> c.idx < |mempool|
  {
    if cs == [] then Selection([], {}, 0, 0)
    else Step(mempool, maxTxs, maxBytes, Walk(mempool, maxTxs, maxBytes, cs[..|cs| - 1]), cs[|cs| - 1])
  }

  /** What `select_transactions` returns for a mempool and a UTXO snapshot. */
  function Select(vsize: Transaction -> nat, maxTxs: nat, maxBytes: nat, utxo: map<OutPoint, TxOutput>, mempool: seq<Transaction>): (sel: Selection)
    ensures |sel.picked| <= maxTxs && sel.totalBytes <= maxBytes
    ensures forall i :: 0 <= i < |sel.picked| ==> sel.picked[i] in mempool && Eligible(utxo, sel.picked[i])
  {
    var cs := Candidates(vsize, utxo, mempool, |mempool|);
    CandidatesSound(vsize, utxo, mempool, |mempool|);
    SortCandsCorrect(cs);
    assert forall c :: c in SortCands(cs) ==> c in multiset(cs);
    WalkOk(vsize, maxTxs, maxBytes, utxo, mempool, SortCands(cs));
    Walk(mempool, maxTxs, maxBytes, SortCands(cs))
  }

  function SizeSum(vsize: Transaction -> nat, txs: seq<Transaction>): nat
  {
    if txs == [] then 0 else SizeSum(vsize, txs[..|txs| - 1]) + vsize(txs[|txs| - 1])
  }

  function FeeSum(utxo: map<OutPoint, TxOutput>, txs: seq<Transaction>): int
  {
    if txs == [] then 0 else FeeSum(utxo, txs[..|txs| - 1]) + Fee(utxo, txs[|txs| - 1])
  }

  /** Every outpoint spent by the transactions. */
  function ConsumedBy(txs: seq<Transaction>): set<OutPoint>
  {
    if txs == [] then {} else ConsumedBy(txs[..|txs| - 1]) + OutpointSet(txs[|txs| - 1].inputs)
  }

  /** No two different positions of `txs` spend a common outpoint. */
  predicate NoSharedOutpoint(txs: seq<Transaction>)
  {
    forall i, j :: 0 <= i < j < |txs| ==> OutpointSet(txs[i].inputs) !! OutpointSet(txs[j].inputs)
  }

  /** What the walk keeps true of its state. */
  predicate SelectionOk(vsize: Transaction -> nat, maxTxs: nat, maxBytes: nat, utxo: map<OutPoint, TxOutput>,
                        mempool: seq<Transaction>, st: Selection)
  {
    && |st.picked| <= maxTxs
    && st.totalBytes == SizeSum(vsize, st.picked) <= maxBytes
    && st.totalFees == FeeSum(utxo, st.picked)
    && st.consumed == ConsumedBy(st.picked)
    && (forall i :: 0 <= i < |st.picked| ==> st.picked[i] in mempool && Eligible(utxo, st.picked[i]))
    && NoSharedOutpoint(st.picked)
  }

  lemma {:induction false} ConsumedByCovers(txs: seq<Transaction>, i: nat)
    requires i < |txs|
    ensures OutpointSet(txs[i].inputs) <= ConsumedBy(txs)
  {
    if i < |txs| - 1 {
      ConsumedByCovers(txs[..|txs| - 1], i);
    }
  }

  lemma StepKeepsSelectionOk(vsize: Transaction -> nat, maxTxs: nat, maxBytes: nat, utxo: map<OutPoint, TxOutput>,
                             mempool: seq<Transaction>, st: Selection, c: Cand)
    requires SelectionOk(vsize, maxTxs, maxBytes, utxo, mempool, st)
    requires Describes(vsize, utxo, mempool, c)
    ensures SelectionOk(vsize, maxTxs, maxBytes, utxo, mempool, Step(mempool, maxTxs, maxBytes, st, c))
  {
    var tx := mempool[c.idx];
    var st' := Step(mempool, maxTxs, maxBytes, st, c);
    if st' != st {
      var picked' := st.picked + [tx];
      assert picked'[..|picked'| - 1] == st.picked;
      forall i | 0 <= i < |st.picked|
        ensures OutpointSet(st.picked[i].inputs) !! OutpointSet(tx.inputs)
      {
        ConsumedByCovers(st.picked, i);
      }
    }
  }

  lemma {:induction false} WalkOk(vsize: Transaction -> nat, maxTxs: nat, maxBytes: nat, utxo: map<OutPoint, TxOutput>,
                                  mempool: seq<Transaction>, cs: seq<Cand>)
    requires forall c :: c in cs ==> c.idx < |mempool| && Describes(vsize, utxo, mempool, c)
    ensures SelectionOk(vsize, maxTxs, maxBytes, utxo, mempool, Walk(mempool, maxTxs, maxBytes, cs))
  {
    if cs != [] {
      var n := |cs| - 1;
      assert forall c :: c in cs[..n] ==> c in cs;
      WalkOk(vsize, maxTxs, maxBytes, utxo, mempool, cs[..n]);
      StepKeepsSelectionOk(vsize, maxTxs, maxBytes, utxo, mempool, Walk(mempool, maxTxs, maxBytes, cs[..n]), cs[n]);
    }
  }

  /** Once the block is full the walk ignores the rest of the order, so
      breaking out of the loop changes nothing. */
  lemma {:induction false} FullStaysFull(mempool: seq<Transaction>, maxTxs: nat, maxBytes: nat, cs: seq<Cand>, k: nat)
    requires forall c :: c in cs ==> c.idx < |mempool|
    requires k <= |cs|
    requires |Walk(mempool, maxTxs, maxBytes, cs[..k]).picked| >= maxTxs
    ensures Walk(mempool, maxTxs, maxBytes, cs) == Walk(mempool, maxTxs, maxBytes, cs[..k])
  {
    if k < |cs| {
      var n := |cs| - 1;
      assert cs[..n][..k] == cs[..k];
      assert forall c :: c in cs[..n] ==> c in cs;
      FullStaysFull(mempool, maxTxs, maxBytes, cs[..n], k);
    } else {
      assert cs[..k] == cs;
    }
  }

  /** The selection is a subset of fundable mempool entries, within both
      limits, whose fees add up to `total_fees`, and no outpoint is spent by
      two of them; the walk follows the sorted candidate order. */
  lemma SelectCorrect(vsize: Transaction -> nat, maxTxs: nat, maxBytes: nat, utxo: map<OutPoint, TxOutput>, mempool: seq<Transaction>)
    ensures SelectionOk(vsize, maxTxs, maxBytes, utxo, mempool, Select(vsize, maxTxs, maxBytes, utxo, mempool))
    ensures Sorted(SortCands(Candidates(vsize, utxo, mempool, |mempool|)))
  {
    var cs := Candidates(vsize, utxo, mempool, |mempool|);
    CandidatesSound(vsize, utxo, mempool, |mempool|);
    SortCandsCorrect(cs);
    assert forall c :: c in SortCands(cs) ==> c in multiset(cs);
    WalkOk(vsize, maxTxs, maxBytes, utxo, mempool, SortCands(cs));
  }

  /** The input loop of the candidate scan: the referenced total when every
      input is in the snapshot, `None` at the first one that is not. */
  method SumPresentInputs(ins: seq<TxInput>, utxo: UtxoSet) returns (sum: Option<nat>)
    ensures sum.Some? <==> forall i :: 0 <= i < |ins| ==> ins[i].outpoint in utxo.entries
    ensures sum.Some? ==> sum.value == ReferencedAmount(utxo.entries, ins)
  {
    var inputSum: nat := 0;
    var j := 0;
    while j < |ins|
      invariant 0 <= j <= |ins|
      invariant forall i :: 0 <= i < j ==> ins[i].outpoint in utxo.entries
      invariant inputSum == ReferencedAmount(utxo.entries, ins[..j])
    {
      match utxo.Get(ins[j].outpoint) {
        case Some(prev) =>
          assert ins[..j + 1][..j] == ins[..j];
          inputSum := inputSum + prev.amount;
        case None =>
          return None;
      }
      j := j + 1;
    }
    assert ins[..j] == ins;
    return Some(inputSum);
  }

  /** The candidate loop of `select_transactions`. */
  method CollectCandidates(vsize: Transaction -> nat, mempool: seq<Transaction>, utxo: UtxoSet) returns (cands: seq<Cand>)
    ensures cands == Candidates(vsize, utxo.entries, mempool, |mempool|)
  {
    cands := [];
    var idx := 0;
    while idx < |mempool|
      invariant 0 <= idx <= |mempool|
      invariant cands == Candidates(vsize, utxo.entries, mempool, idx)
    {
      var tx := mempool[idx];
      idx := idx + 1;
      if |tx.inputs| == 0 {
        continue;
      }
      var inputSum := SumPresentInputs(tx.inputs, utxo);
      if inputSum.None? {
        continue;
      }
      var outputSum := OutputSum(tx.outputs);
      if inputSum.value < outputSum {
        continue;
      }
      var fee := inputSum.value - outputSum;
      var size := vsize(tx);
      cands := cands + [Cand(idx - 1, tx.txid, fee, size)];
    }
  }

  /** The conflict scan: some input's outpoint is already consumed. */
  method ClaimsConsumed(ins: seq<TxInput>, consumed: set<OutPoint>) returns (conflict: bool)
    ensures conflict <==> !(OutpointSet(ins) !! consumed)
  {
    var j := 0;
    while j < |ins|
      invariant 0 <= j <= |ins|
      invariant forall i :: 0 <= i < j ==> ins[i].outpoint !in consumed
    {
      if ins[j].outpoint in consumed {
        assert ins[j].outpoint in OutpointSet(ins);
        return true;
      }
      j := j + 1;
    }
    return false;
  }

  /** Marks every input's outpoint as consumed. */
  method Claim(ins: seq<TxInput>, consumed: set<OutPoint>) returns (consumed': set<OutPoint>)
    ensures consumed' == consumed + OutpointSet(ins)
  {
    consumed' := consumed;
    var j := 0;
    while j < |ins|
      invariant 0 <= j <= |ins|
      invariant consumed' == consumed + set i | 0 <= i < j :: ins[i].outpoint
    {
      consumed' := consumed' + {ins[j].outpoint};
      j := j + 1;
    }
  }

  /** The greedy loop of `select_transactions` over the sorted candidates,
      with its `break` on a full block and its `continue`s on an oversize or
      conflicting candidate. */
  method GreedyWalk(mempool: seq<Transaction>, maxTxs: nat, maxBytes: nat, order: seq<Cand>) returns (sel: Selection)
    requires forall c :: c in order ==> c.idx < |mempool|
    ensures sel == Walk(mempool, maxTxs, maxBytes, order)
  {
    var picked: seq<Transaction> := [];
    var consumed: set<OutPoint> := {};
    var totalFees: nat := 0;
    var totalBytes: nat := 0;
    var k := 0;
    while k < |order|
      invariant 0 <= k <= |order|
      invariant Selection(picked, consumed, totalFees, totalBytes) == Walk(mempool, maxTxs, maxBytes, order[..k])
    {
      var c := order[k];
      assert order[..k + 1][..k] == order[..k];
      if |picked| >= maxTxs {
        break;
      }
      k := k + 1;
      if totalBytes + c.size > maxBytes {
        continue;
      }
      var tx := mempool[c.idx];
      var conflict := ClaimsConsumed(tx.inputs, consumed);
      if conflict {
        continue;
      }
      consumed := Claim(tx.inputs, consumed);
      totalFees := totalFees + c.fee;
      totalBytes := totalBytes + c.size;
      picked := picked + [tx];
    }
    if k < |order| {
      FullStaysFull(mempool, maxTxs, maxBytes, order, k);
    } else {
      assert order[..k] == order;
    }
    return Selection(picked, consumed, totalFees, totalBytes);
  }

  /** `select_transactions`: builds the candidates, sorts them and walks the
      order greedily. It reads the mempool and the UTXO set only. */
  method SelectTransactions(env: Env, mempool: seq<Transaction>, utxo: UtxoSet) returns (picked: seq<Transaction>, totalFees: nat)
    ensures var sel := Select(env.vsize, env.maxTxsPerBlock, env.maxBlockBytes, utxo.entries, mempool);
            picked == sel.picked && totalFees == sel.totalFees
    ensures |picked| <= env.maxTxsPerBlock && SizeSum(env.vsize, picked) <= env.maxBlockBytes
    ensures totalFees == FeeSum(utxo.entries, picked)
    ensures forall i :: 0 <= i < |picked| ==> picked[i] in mempool && Eligible(utxo.entries, picked[i])
    ensures NoSharedOutpoint(picked)
  {
    var cands := CollectCandidates(env.vsize, mempool, utxo);
    CandidatesSound(env.vsize, utxo.entries, mempool, |mempool|);
    var order := SortCands(cands);
    SortCandsCorrect(cands);
    assert forall c :: c in order ==> c in multiset(cands);
    var sel := GreedyWalk(mempool, env.maxTxsPerBlock, env.maxBlockBytes, order);
    SelectCorrect(env.vsize, env.maxTxsPerBlock, env.maxBlockBytes, utxo.entries, mempool);
    return sel.picked, sel.totalFees;
  }
}
