/** The key primitives of src/wallet/mod.rs that transaction admission calls.
    Both are secp256k1 ECDSA operations (hex decoding, point parsing, DER
    decoding, verification) and enter the model as foreign calls: function
    values that may return an error message, about which nothing else is
    assumed. */
module Wallet {
  import opened Common
  import opened TxModel

  datatype Signer = Signer(
    /** `pubkey_to_address_hex`: the normalised hex of a valid compressed
        public key, or the reason it is not one. */
    pubkeyToAddress: string -> Result<string, string>,
    /** `verify_signature_hex(pubkey, signature, msg32)`: whether the DER
        signature verifies, or the reason an argument could not be decoded. */
    verifySignature: (string, string, Digest) -> Result<bool, string>)
}
