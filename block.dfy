/** A block and its proof of work (src/blockchain/block.rs). A block is a value:
    the source builds it, mines it in a local variable and then moves it into the
    chain's vector, so `mine(&mut self)` becomes a method that returns the updated
    block. */
module BlockPow {
  import opened Common
  import opened TxModel

  /** The block payload. block.rs stores a `data: String`; the mining protocol
      builds blocks from a transaction list (through `Block::new_with_timestamp`,
      which is not part of this model), so both forms are kept. */
  datatype Payload = Text(text: string) | Txs(txs: seq<Transaction>)

  datatype Block = Block(index: U64, timestamp: I64, previousHash: string, nonce: U64, hash: string, data: Payload)

  /** The foreign parts of `compute_hash`: hex(SHA-256(bytes)) over the preimage
      string, and the text a transaction list contributes to that preimage.
      The digest's fixed length of 64 characters is not stated, which is why
      `IsValid` also has to handle a hash shorter than the difficulty. */
  datatype BlockHashing = BlockHashing(sha256Hex: string -> string, encodeTxs: seq<Transaction> -> string)

  function DigitChar(d: nat): (c: char)
    requires d < 10
    ensures '0' <= c <= '9' && c as int - '0' as int == d
  {
    ('0' as int + d) as char
  }

  /** Rust's `Display` for an unsigned integer: a non-empty run of digits. */
  function NatToDecimal(n: nat): (r: string)
    ensures |r| >= 1 && forall k :: 0 <= k < |r| ==> '0' <= r[k] <= '9'
  {
    if n < 10 then [DigitChar(n)] else NatToDecimal(n / 10) + [DigitChar(n % 10)]
  }

  /** Rust's `Display` for a signed integer. */
  function IntToDecimal(i: int): string
  {
    if i < 0 then "-" + NatToDecimal(-i) else NatToDecimal(i)
  }

  /** The number a run of decimal digits spells. */
  function DecimalValue(s: string): nat
  {
    if s == [] then 0
    else
      var c := s[|s| - 1];
      DecimalValue(s[..|s| - 1]) * 10 + (if '0' <= c <= '9' then c as int - '0' as int else 0)
  }

  /** Reading back a formatted number gives the number, so distinct numbers
      are formatted differently. */
  lemma {:induction false} NatToDecimalRoundTrip(n: nat)
    ensures DecimalValue(NatToDecimal(n)) == n
  {
    var r := NatToDecimal(n);
    if n < 10 {
      assert r[..0] == [];
    } else {
      NatToDecimalRoundTrip(n / 10);
      assert r[..|r| - 1] == NatToDecimal(n / 10);
    }
  }

  /** The number a possibly signed run of decimal digits spells. */
  function SignedDecimalValue(s: string): int
  {
    if s != [] && s[0] == '-' then -(DecimalValue(s[1..]) as int) else DecimalValue(s)
  }

  lemma IntToDecimalRoundTrip(i: int)
    ensures SignedDecimalValue(IntToDecimal(i)) == i
  {
    if i < 0 {
      assert IntToDecimal(i)[1..] == NatToDecimal(-i);
      NatToDecimalRoundTrip(-i);
    } else {
      NatToDecimalRoundTrip(i);
    }
  }

  function EncodePayload(bh: BlockHashing, data: Payload): string
  {
    match data
    case Text(s) => s
    case Txs(txs) => bh.encodeTxs(txs)
  }

  /** The `index:timestamp:previous_hash:nonce:data` string that is hashed. */
  function Preimage(bh: BlockHashing, b: Block): string
  {
    NatToDecimal(b.index) + ":" + IntToDecimal(b.timestamp) + ":" + b.previousHash + ":"
    + NatToDecimal(b.nonce) + ":" + EncodePayload(bh, b.data)
  }

  /** `compute_hash`: every field except `hash` itself, so the digest is the
      one of the block with its stored hash blanked. */
  function ComputeHash(bh: BlockHashing, b: Block): (h: string)
    ensures h == bh.sha256Hex(Preimage(bh, b.(hash := "")))
  {
    bh.sha256Hex(Preimage(bh, b))
  }

  /** Storing a hash never changes what `compute_hash` returns. */
  lemma ComputeHashIgnoresHash(bh: BlockHashing, b: Block, h: string)
    ensures ComputeHash(bh, b.(hash := h)) == ComputeHash(bh, b)
  {
  }

  /** `Block::genesis`, stamped with the clock reading `now`. */
  function Genesis(bh: BlockHashing, now: I64): (g: Block)
    ensures g.index == 0 && g.previousHash == "0" && g.nonce == 0 && g.timestamp == now
    ensures g.hash == ComputeHash(bh, g)
  {
    var b := Block(0, now, "0", 0, "", Text("genesis"));
    b.(hash := ComputeHash(bh, b))
  }

  /** `Block::new`: an unmined block whose stored hash matches its content. */
  function NewBlock(bh: BlockHashing, index: U64, previousHash: string, data: Payload, now: I64): (b: Block)
    ensures b.index == index && b.previousHash == previousHash && b.data == data && b.timestamp == now
    ensures b.nonce == 0 && b.hash == ComputeHash(bh, b)
  {
    var b := Block(index, now, previousHash, 0, "", data);
    b.(hash := ComputeHash(bh, b))
  }

  /** `hash.starts_with(&"0".repeat(difficulty))`, the test `mine` loops on. */
  predicate HasZeroPrefix(h: string, difficulty: nat)
  {
    difficulty <= |h| && forall i :: 0 <= i < difficulty ==> h[i] == '0'
  }

  /** `hash.chars().take(difficulty).all(|c| c == '0')`, the test `is_valid` uses. */
  predicate LeadingZeros(h: string, difficulty: nat)
  {
    forall i :: 0 <= i < difficulty && i < |h| ==> h[i] == '0'
  }

  /** `is_valid`: the stored hash matches the content and meets the difficulty;
      linkage is not checked here. A hash that passes the mining test passes
      `is_valid`, and the converse holds whenever the hash is at least
      `difficulty` characters long (a 64-digit hex digest, for every
      difficulty up to 64). */
  predicate IsValid(bh: BlockHashing, b: Block, difficulty: nat): (ok: bool)
    ensures b.hash == ComputeHash(bh, b) && HasZeroPrefix(b.hash, difficulty) ==> ok
    ensures difficulty <= |b.hash| ==> (ok <==> b.hash == ComputeHash(bh, b) && HasZeroPrefix(b.hash, difficulty))
  {
    b.hash == ComputeHash(bh, b) && LeadingZeros(b.hash, difficulty)
  }

  /** A block valid at some difficulty is valid at every lower one. */
  lemma IsValidAntitone(bh: BlockHashing, b: Block, d: nat, d': nat)
    requires IsValid(bh, b, d) && d' <= d
    ensures IsValid(bh, b, d')
  {
  }

  /** `nonce.wrapping_add(1)`. */
  function WrappingInc(n: U64): (r: U64)
    ensures r == (n + 1) % U64_LIMIT
  {
    if n == U64_MAX then 0 else n + 1
  }

  /** The nonce after `k` wrapping increments from `start`. */
  function NonceAfter(start: U64, k: nat): U64
  {
    if k == 0 then start else WrappingInc(NonceAfter(start, k - 1))
  }

  /** `b` with its nonce set to `n` and its hash recomputed. */
  function WithNonce(bh: BlockHashing, b: Block, n: U64): Block
  {
    var c := b.(nonce := n);
    c.(hash := ComputeHash(bh, c))
  }

  /** Nonce `n` solves `b` at `difficulty` under the mining test. */
  predicate Solves(bh: BlockHashing, b: Block, n: U64, difficulty: nat)
  {
    HasZeroPrefix(WithNonce(bh, b, n).hash, difficulty)
  }

  /** `mine`: try the current nonce, then wrapping increments, until the
      recomputed hash starts with `difficulty` zeros. The source loops without
      bound; here at most `fuel` nonces are tried. On success only `nonce` and
      `hash` have changed, the hash matches the content and meets the difficulty,
      and the nonce is the first one in search order that does. */
  method Mine(bh: BlockHashing, b: Block, difficulty: U32, fuel: nat) returns (mined: Option<Block>)
    ensures mined.Some? ==> mined.value == WithNonce(bh, b, mined.value.nonce)
    ensures mined.Some? ==> HasZeroPrefix(mined.value.hash, difficulty) && IsValid(bh, mined.value, difficulty)
    ensures mined.Some? ==>
              exists k :: 0 <= k < fuel && mined.value.nonce == NonceAfter(b.nonce, k)
                          && forall j :: 0 <= j < k ==> !Solves(bh, b, NonceAfter(b.nonce, j), difficulty)
    ensures mined.None? ==> forall k :: 0 <= k < fuel ==> !Solves(bh, b, NonceAfter(b.nonce, k), difficulty)
  {
    var block := b;
    var tries := 0;
    while tries < fuel
      invariant tries <= fuel
      invariant block.nonce == NonceAfter(b.nonce, tries)
      invariant block.(nonce := b.nonce, hash := b.hash) == b
      invariant forall j :: 0 <= j < tries ==> !Solves(bh, b, NonceAfter(b.nonce, j), difficulty)
    {
      block := block.(hash := ComputeHash(bh, block));
      assert block == WithNonce(bh, b, block.nonce);
      if HasZeroPrefix(block.hash, difficulty) {
        return Some(block);
      }
      block := block.(nonce := WrappingInc(block.nonce));
      tries := tries + 1;
    }
    return None;
  }

  /** Changing the payload of a block whose hash was current (as the tamper
      test does) makes its stored hash stale, so it fails `is_valid` at every
      difficulty, provided the hash separates distinct preimages and the two
      payloads are written differently into the preimage. */
  lemma TamperedPayloadInvalid(bh: BlockHashing, b: Block, data: Payload, difficulty: nat)
    requires Injective(bh.sha256Hex)
    requires EncodePayload(bh, data) != EncodePayload(bh, b.data)
    requires b.hash == ComputeHash(bh, b)
    ensures ComputeHash(bh, b.(data := data)) != b.hash
    ensures !IsValid(bh, b.(data := data), difficulty)
  {
    var b' := b.(data := data);
    var prefix := NatToDecimal(b.index) + ":" + IntToDecimal(b.timestamp) + ":" + b.previousHash + ":"
                  + NatToDecimal(b.nonce) + ":";
    assert Preimage(bh, b) == prefix + EncodePayload(bh, b.data);
    assert Preimage(bh, b') == prefix + EncodePayload(bh, data);
    assert (prefix + EncodePayload(bh, data))[|prefix|..] == EncodePayload(bh, data);
    assert (prefix + EncodePayload(bh, b.data))[|prefix|..] == EncodePayload(bh, b.data);
  }

  /** Strings that agree outside one slot agree in that slot. */
  lemma SameSurroundings(p: string, x: string, y: string, q: string)
    requires p + x + q == p + y + q
    ensures x == y
  {
    assert |x| == |y|;
    assert x == (p + x + q)[|p|..|p| + |x|];
    assert y == (p + y + q)[|p|..|p| + |y|];
  }

  /** `b'` is `b` with exactly one field changed; a changed payload must also
      be written differently into the preimage. */
  predicate OneFieldChanged(bh: BlockHashing, b: Block, b': Block)
  {
    || (b' == b.(index := b'.index) && b'.index != b.index)
    || (b' == b.(timestamp := b'.timestamp) && b'.timestamp != b.timestamp)
    || (b' == b.(previousHash := b'.previousHash) && b'.previousHash != b.previousHash)
    || (b' == b.(nonce := b'.nonce) && b'.nonce != b.nonce)
    || (b' == b.(data := b'.data) && EncodePayload(bh, b'.data) != EncodePayload(bh, b.data))
    || (b' == b.(hash := b'.hash) && b'.hash != b.hash)
  }

  /** Each hashed field is recoverable from the preimage once the others are
      fixed: changing one of them changes the preimage. */
  lemma IndexInPreimage(bh: BlockHashing, b: Block, index: U64)
    requires index != b.index
    ensures Preimage(bh, b.(index := index)) != Preimage(bh, b)
  {
    var rest := ":" + IntToDecimal(b.timestamp) + ":" + b.previousHash + ":" + NatToDecimal(b.nonce) + ":" + EncodePayload(bh, b.data);
    if Preimage(bh, b.(index := index)) == Preimage(bh, b) {
      assert Preimage(bh, b) == [] + NatToDecimal(b.index) + rest;
      assert Preimage(bh, b.(index := index)) == [] + NatToDecimal(index) + rest;
      SameSurroundings([], NatToDecimal(index), NatToDecimal(b.index), rest);
      NatToDecimalRoundTrip(b.index);
      NatToDecimalRoundTrip(index);
    }
  }

  lemma TimestampInPreimage(bh: BlockHashing, b: Block, timestamp: I64)
    requires timestamp != b.timestamp
    ensures Preimage(bh, b.(timestamp := timestamp)) != Preimage(bh, b)
  {
    var head := NatToDecimal(b.index) + ":";
    var rest := ":" + b.previousHash + ":" + NatToDecimal(b.nonce) + ":" + EncodePayload(bh, b.data);
    if Preimage(bh, b.(timestamp := timestamp)) == Preimage(bh, b) {
      assert Preimage(bh, b) == head + IntToDecimal(b.timestamp) + rest;
      assert Preimage(bh, b.(timestamp := timestamp)) == head + IntToDecimal(timestamp) + rest;
      SameSurroundings(head, IntToDecimal(timestamp), IntToDecimal(b.timestamp), rest);
      IntToDecimalRoundTrip(b.timestamp);
      IntToDecimalRoundTrip(timestamp);
    }
  }

  lemma PreviousHashInPreimage(bh: BlockHashing, b: Block, previousHash: string)
    requires previousHash != b.previousHash
    ensures Preimage(bh, b.(previousHash := previousHash)) != Preimage(bh, b)
  {
    var head := NatToDecimal(b.index) + ":" + IntToDecimal(b.timestamp) + ":";
    var rest := ":" + NatToDecimal(b.nonce) + ":" + EncodePayload(bh, b.data);
    if Preimage(bh, b.(previousHash := previousHash)) == Preimage(bh, b) {
      assert Preimage(bh, b) == head + b.previousHash + rest;
      assert Preimage(bh, b.(previousHash := previousHash)) == head + previousHash + rest;
      SameSurroundings(head, previousHash, b.previousHash, rest);
    }
  }

  lemma NonceInPreimage(bh: BlockHashing, b: Block, nonce: U64)
    requires nonce != b.nonce
    ensures Preimage(bh, b.(nonce := nonce)) != Preimage(bh, b)
  {
    var head := NatToDecimal(b.index) + ":" + IntToDecimal(b.timestamp) + ":" + b.previousHash + ":";
    var rest := ":" + EncodePayload(bh, b.data);
    if Preimage(bh, b.(nonce := nonce)) == Preimage(bh, b) {
      assert Preimage(bh, b) == head + NatToDecimal(b.nonce) + rest;
      assert Preimage(bh, b.(nonce := nonce)) == head + NatToDecimal(nonce) + rest;
      SameSurroundings(head, NatToDecimal(nonce), NatToDecimal(b.nonce), rest);
      NatToDecimalRoundTrip(b.nonce);
      NatToDecimalRoundTrip(nonce);
    }
  }

  /** Changing any one field of a block whose hash was current leaves a stored
      hash that no longer matches the content, so the block fails `is_valid`
      at every difficulty, provided the hash separates distinct preimages. */
  lemma TamperedBlockInvalid(bh: BlockHashing, b: Block, b': Block, difficulty: nat)
    requires Injective(bh.sha256Hex)
    requires b.hash == ComputeHash(bh, b)
    requires OneFieldChanged(bh, b, b')
    ensures b'.hash != ComputeHash(bh, b')
    ensures !IsValid(bh, b', difficulty)
  {
    if b' == b.(index := b'.index) && b'.index != b.index {
      IndexInPreimage(bh, b, b'.index);
    } else if b' == b.(timestamp := b'.timestamp) && b'.timestamp != b.timestamp {
      TimestampInPreimage(bh, b, b'.timestamp);
    } else if b' == b.(previousHash := b'.previousHash) && b'.previousHash != b.previousHash {
      PreviousHashInPreimage(bh, b, b'.previousHash);
    } else if b' == b.(nonce := b'.nonce) && b'.nonce != b.nonce {
      NonceInPreimage(bh, b, b'.nonce);
    } else if b' == b.(data := b'.data) && EncodePayload(bh, b'.data) != EncodePayload(bh, b.data) {
      TamperedPayloadInvalid(bh, b, b'.data, difficulty);
    } else {
      assert Preimage(bh, b') == Preimage(bh, b);
    }
  }
}
