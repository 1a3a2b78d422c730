/** Transaction admission (src/api/tx.rs): structural checks on the outputs,
    UTXO-level validation against the current set, and the append to the
    mempool. */
module TxApi {
  import opened Common
  import opened TxModel
  import opened Utxo
  import opened Wallet
  import opened Ledger

  /** The refusals of `post_transaction` and `validate_transaction`, one per
      message; the two carrying a reason pass on the wallet's message. */
  datatype TxError =
    | NoOutputs
    | ZeroAmountOutput
    | NoInputs
    | DuplicateInput
    | UnknownOutput
    | BadPubkey(reason: string)
    | OwnershipMismatch
    | MissingSignature
    | BadSignature(reason: string)
    | InvalidSignature
    | InsufficientFunds

  /** Some outpoint is listed by two different inputs. */
  predicate HasDuplicateOutpoint(ins: seq<TxInput>)
  {
    exists i, j :: 0 <= i < j < |ins| && ins[i].outpoint == ins[j].outpoint
  }

  /** The checks one input goes through, in order: the referenced output
      exists, the pubkey parses and derives that output's address, a signature
      is present, it decodes and it verifies against `sighash`. On success,
      the referenced amount. */
  function CheckInput(utxo: map<OutPoint, TxOutput>, signer: Signer, sighash: Digest, input: TxInput): Result<U64, TxError>
  {
    if input.outpoint !in utxo then Err(UnknownOutput)
    else
      var prev := utxo[input.outpoint];
      match signer.pubkeyToAddress(input.pubkey)
      case Err(reason) => Err(BadPubkey(reason))
      case Ok(address) =>
        if prev.address != address then Err(OwnershipMismatch)
        else if input.signature == "" then Err(MissingSignature)
        else
          match signer.verifySignature(input.pubkey, input.signature, sighash)
          case Err(reason) => Err(BadSignature(reason))
          case Ok(verified) => if verified then Ok(prev.amount) else Err(InvalidSignature)
  }

  /** Adds `n` to a successful sum and passes an error through. */
  function AddTo(r: Result<nat, TxError>, n: nat): Result<nat, TxError>
  {
    match r
    case Err(e) => Err(e)
    case Ok(s) => Ok(s + n)
  }

  /** The input loop: the error of the first input that fails, or the total
      amount the inputs reference. Its errors are always per-input ones. */
  function CheckInputs(utxo: map<OutPoint, TxOutput>, signer: Signer, sighash: Digest, ins: seq<TxInput>): (r: Result<nat, TxError>)
    ensures r.Err? ==> !r.error.NoInputs? && !r.error.DuplicateInput? && !r.error.InsufficientFunds?
  {
    if ins == [] then Ok(0)
    else
      match CheckInput(utxo, signer, sighash, ins[0])
      case Err(e) => Err(e)
      case Ok(amount) => AddTo(CheckInputs(utxo, signer, sighash, ins[1..]), amount)
  }

  /** What `validate_transaction` decides, check by check. */
  function Validate(sighashOf: SighashHasher, signer: Signer, utxo: map<OutPoint, TxOutput>, tx: Transaction): (r: Result<(), TxError>)
    ensures tx.inputs == [] ==> r == Err(NoInputs)
    ensures tx.inputs != [] && HasDuplicateOutpoint(tx.inputs) ==> r == Err(DuplicateInput)
    ensures r == Err(InsufficientFunds) ==>
              && (forall i :: 0 <= i < |tx.inputs| ==> CheckInput(utxo, signer, Sighash(sighashOf, tx), tx.inputs[i]).Ok?)
              && ReferencedAmount(utxo, tx.inputs) < OutputSum(tx.outputs)
  {
    CheckInputsOk(utxo, signer, Sighash(sighashOf, tx), tx.inputs);
    if tx.inputs == [] then Err(NoInputs)
    else if HasDuplicateOutpoint(tx.inputs) then Err(DuplicateInput)
    else
      match CheckInputs(utxo, signer, Sighash(sighashOf, tx), tx.inputs)
      case Err(e) => Err(e)
      case Ok(inputSum) => if inputSum < OutputSum(tx.outputs) then Err(InsufficientFunds) else Ok(())
  }

  /** The input loop succeeds exactly when every input passes its checks, and
      then yields the referenced amount. */
  lemma {:induction false} CheckInputsOk(utxo: map<OutPoint, TxOutput>, signer: Signer, sighash: Digest, ins: seq<TxInput>)
    ensures CheckInputs(utxo, signer, sighash, ins).Ok? <==>
              forall i :: 0 <= i < |ins| ==> CheckInput(utxo, signer, sighash, ins[i]).Ok?
    ensures CheckInputs(utxo, signer, sighash, ins).Ok? ==>
              CheckInputs(utxo, signer, sighash, ins).value == ReferencedAmount(utxo, ins)
  {
    if ins != [] {
      CheckInputsOk(utxo, signer, sighash, ins[1..]);
      ReferencedAmountCons(utxo, ins);
      if CheckInput(utxo, signer, sighash, ins[0]).Ok? {
        forall i | 1 <= i < |ins|
          ensures CheckInput(utxo, signer, sighash, ins[i]) == CheckInput(utxo, signer, sighash, ins[1..][i - 1])
        {
        }
      }
    }
  }

  /** The first failing input decides the error: if inputs before `k` pass and
      input `k` fails, the loop fails with input `k`'s error. */
  lemma {:induction false} FirstFailureDecides(utxo: map<OutPoint, TxOutput>, signer: Signer, sighash: Digest, ins: seq<TxInput>, k: nat)
    requires k < |ins|
    requires forall i :: 0 <= i < k ==> CheckInput(utxo, signer, sighash, ins[i]).Ok?
    requires CheckInput(utxo, signer, sighash, ins[k]).Err?
    ensures CheckInputs(utxo, signer, sighash, ins) == Err(CheckInput(utxo, signer, sighash, ins[k]).error)
  {
    if k > 0 {
      assert CheckInput(utxo, signer, sighash, ins[0]).Ok?;
      assert ins[1..][k - 1] == ins[k];
      FirstFailureDecides(utxo, signer, sighash, ins[1..], k - 1);
    }
  }

  /** An accepted transaction has inputs, lists no outpoint twice, and every
      input references an unspent output owned by its pubkey's address and
      carries a non-empty signature that verifies against the sighash; the
      referenced amount covers the outputs. */
  lemma AcceptedMeans(sighashOf: SighashHasher, signer: Signer, utxo: map<OutPoint, TxOutput>, tx: Transaction)
    requires Validate(sighashOf, signer, utxo, tx) == Ok(())
    ensures |tx.inputs| > 0 && !HasDuplicateOutpoint(tx.inputs)
    ensures forall i :: 0 <= i < |tx.inputs| ==>
              var input := tx.inputs[i];
              && input.outpoint in utxo
              && signer.pubkeyToAddress(input.pubkey) == Ok(utxo[input.outpoint].address)
              && input.signature != ""
              && signer.verifySignature(input.pubkey, input.signature, Sighash(sighashOf, tx)) == Ok(true)
    ensures ReferencedAmount(utxo, tx.inputs) >= OutputSum(tx.outputs)
  {
    var sighash := Sighash(sighashOf, tx);
    CheckInputsOk(utxo, signer, sighash, tx.inputs);
    forall i | 0 <= i < |tx.inputs|
      ensures var input := tx.inputs[i];
              && input.outpoint in utxo
              && signer.pubkeyToAddress(input.pubkey) == Ok(utxo[input.outpoint].address)
              && input.signature != ""
              && signer.verifySignature(input.pubkey, input.signature, sighash) == Ok(true)
    {
      assert CheckInput(utxo, signer, sighash, tx.inputs[i]).Ok?;
    }
  }

  /** Once the structural and per-input checks pass, acceptance holds exactly
      when the referenced amount is at least the output total; a zero fee is
      accepted. */
  lemma EconomicsDecides(sighashOf: SighashHasher, signer: Signer, utxo: map<OutPoint, TxOutput>, tx: Transaction)
    requires |tx.inputs| > 0 && !HasDuplicateOutpoint(tx.inputs)
    requires forall i :: 0 <= i < |tx.inputs| ==> CheckInput(utxo, signer, Sighash(sighashOf, tx), tx.inputs[i]).Ok?
    ensures Validate(sighashOf, signer, utxo, tx) == Ok(()) <==> ReferencedAmount(utxo, tx.inputs) >= OutputSum(tx.outputs)
    ensures Validate(sighashOf, signer, utxo, tx).Err? ==> Validate(sighashOf, signer, utxo, tx) == Err(InsufficientFunds)
  {
    CheckInputsOk(utxo, signer, Sighash(sighashOf, tx), tx.inputs);
  }

  /** The duplicate scan of `validate_transaction`: each outpoint is added to
      `seen`, and meeting one already there is a duplicate. */
  method ScanForDuplicate(ins: seq<TxInput>) returns (duplicate: bool)
    ensures duplicate <==> HasDuplicateOutpoint(ins)
  {
    var seen: set<OutPoint> := {};
    var k := 0;
    while k < |ins|
      invariant 0 <= k <= |ins|
      invariant seen == set j | 0 <= j < k :: ins[j].outpoint
      invariant forall i, j :: 0 <= i < j < k ==> ins[i].outpoint != ins[j].outpoint
    {
      var key := ins[k].outpoint;
      if key in seen {
        var i :| 0 <= i < k && ins[i].outpoint == key;
        assert 0 <= i < k < |ins| && ins[i].outpoint == ins[k].outpoint;
        return true;
      }
      seen := seen + {key};
      k := k + 1;
    }
    return false;
  }

  /** The input loop of `validate_transaction`, accumulating `input_sum` and
      returning at the first failing check. */
  method SumCheckedInputs(signer: Signer, sighash: Digest, ins: seq<TxInput>, utxo: UtxoSet) returns (r: Result<nat, TxError>)
    ensures r == CheckInputs(utxo.entries, signer, sighash, ins)
  {
    ghost var all := CheckInputs(utxo.entries, signer, sighash, ins);
    var inputSum: nat := 0;
    var i := 0;
    while i < |ins|
      invariant 0 <= i <= |ins|
      invariant all == AddTo(CheckInputs(utxo.entries, signer, sighash, ins[i..]), inputSum)
    {
      var input := ins[i];
      assert ins[i..][0] == input && ins[i..][1..] == ins[i + 1..];
      var prev := utxo.Get(input.outpoint);
      if prev.None? {
        return Err(UnknownOutput);
      }
      var derived := signer.pubkeyToAddress(input.pubkey);
      if derived.Err? {
        return Err(BadPubkey(derived.error));
      }
      if prev.value.address != derived.value {
        return Err(OwnershipMismatch);
      }
      if |input.signature| == 0 {
        return Err(MissingSignature);
      }
      var verified := signer.verifySignature(input.pubkey, input.signature, sighash);
      if verified.Err? {
        return Err(BadSignature(verified.error));
      }
      if !verified.value {
        return Err(InvalidSignature);
      }
      inputSum := inputSum + prev.value.amount;
      i := i + 1;
    }
    return Ok(inputSum);
  }

  /** `validate_transaction`: no inputs, then the duplicate scan, then the
      input loop, then the economic check. It reads the UTXO set only. */
  method ValidateTransaction(sighashOf: SighashHasher, signer: Signer, tx: Transaction, utxo: UtxoSet) returns (r: Result<(), TxError>)
    ensures r == Validate(sighashOf, signer, utxo.entries, tx)
  {
    if |tx.inputs| == 0 {
      return Err(NoInputs);
    }
    var duplicate := ScanForDuplicate(tx.inputs);
    if duplicate {
      return Err(DuplicateInput);
    }
    var sighash := Sighash(sighashOf, tx);
    var checked := SumCheckedInputs(signer, sighash, tx.inputs, utxo);
    if checked.Err? {
      return Err(checked.error);
    }
    var outputSum := OutputSum(tx.outputs);
    if checked.value < outputSum {
      return Err(InsufficientFunds);
    }
    return Ok(());
  }

  /** Some output of the request carries a zero amount. */
  predicate HasZeroAmount(outputs: seq<TxOutput>)
  {
    exists j :: 0 <= j < |outputs| && outputs[j].amount == 0
  }

  /** The admission logic of `post_transaction`: reject an empty output list
      or a zero-amount output, build the transaction, validate it against the
      UTXO set, and append it to the mempool, answering with its txid. The
      UTXO set, the chain and the template store are only read. */
  method PostTransaction(state: AppState, env: Env, inputs: seq<TxInput>, outputs: seq<TxOutput>) returns (r: Result<string, TxError>)
    requires state.Valid()
    modifies state`mempool
    ensures state.Valid()
    ensures outputs == [] ==> r == Err(NoOutputs)
    ensures outputs != [] && HasZeroAmount(outputs) ==> r == Err(ZeroAmountOutput)
    ensures outputs != [] && !HasZeroAmount(outputs) ==>
              var tx := NewTransaction(env.txidOf, inputs, outputs);
              match Validate(env.sighashOf, env.signer, state.utxoSet.entries, tx)
              case Err(e) => r == Err(e)
              case Ok(_) => r == Ok(tx.txid)
    ensures r.Ok? ==> state.mempool == old(state.mempool) + [NewTransaction(env.txidOf, inputs, outputs)]
    ensures r.Err? ==> state.mempool == old(state.mempool)
  {
    if |outputs| == 0 {
      return Err(NoOutputs);
    }
    if exists j :: 0 <= j < |outputs| && outputs[j].amount == 0 {
      return Err(ZeroAmountOutput);
    }
    var tx := NewTransaction(env.txidOf, inputs, outputs);
    var verdict := ValidateTransaction(env.sighashOf, env.signer, tx, state.utxoSet);
    if verdict.Err? {
      return Err(verdict.error);
    }
    state.mempool := state.mempool + [tx];
    return Ok(tx.txid);
  }
}
