/**
 * The cryptographic adapter (`EncryptionUtil`, `DigitalSignatureUtil`) as opaque function
 * values. Nothing is known about them except the round-trip law of `Laws`: decrypting with
 * the key that encrypted gives back the plaintext. A decryption that fails (the Java
 * methods throw) is `None`.
 */
module CryptoAdapter {
  import opened Wrappers
  import opened Messages

  /** An opaque handle for one connection's AES key. */
  datatype Key = Key(handle: nat)

  datatype Crypto = Crypto(
    encrypt: (string, Key) -> string,
    decrypt: (string, Key) -> Option<string>,
    encryptBytes: (seq<byte>, Key) -> seq<byte>,
    decryptBytes: (seq<byte>, Key) -> Option<seq<byte>>,
    verifySignature: (string, seq<byte>, string) -> bool,
    keyToString: Key -> string)

  /** Decryption undoes encryption under the same key, for text and for file bytes. */
  ghost predicate Laws(c: Crypto) {
    && (forall p, k :: c.decrypt(c.encrypt(p, k), k) == Some(p))
    && (forall b, k :: c.decryptBytes(c.encryptBytes(b, k), k) == Some(b))
  }
}
