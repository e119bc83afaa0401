/** The KEK wrapper: the keyfile is encrypted under a freshly generated
    key-encrypting key, and the KEK in turn is encrypted under each factor's
    wrapping key. Random draws (the generated key, the nonces) are
    parameters. */
module Keyfile {
  import opened Bytes
  import opened Primitives
  import opened Params

  /** `KeyEncryptionKey { key: [u8; 32] }`. */
  type KeyEncryptionKey = Bytes32

  /** Length of every wrapped KEK: 32 bytes of KEK and the tag. */
  const WRAPPED_KEK_LEN: nat := 32 + TAG_LEN

  /** `EncryptedKeyfile::new`: `authKey` and `nonce` are the two draws from the OS RNG. */
  function NewKeyfile(plain: seq<byte>, authKey: Bytes32, nonce: Bytes24): (r: (EncryptedKeyfile, KeyEncryptionKey))
    ensures r.1 == authKey && r.0.nonce == nonce
    ensures |r.0.encrypted_keyfile_content| == |plain| + TAG_LEN
    ensures DecryptKeyfile(r.0, r.1) == Ok(plain)
  {
    OpenSeal(authKey, nonce, plain);
    (EncryptedKeyfile(Seal(authKey, nonce, plain), nonce), authKey)
  }

  /** `EncryptedKeyfile::decrypt`: `Err` exactly when authentication fails;
      on success the data is exactly what the stored ciphertext seals. */
  function DecryptKeyfile(e: EncryptedKeyfile, kek: KeyEncryptionKey): (r: Result<seq<byte>>)
    ensures r.Ok? <==> Open(kek, e.nonce, e.encrypted_keyfile_content).Some?
    ensures r.Ok? ==> Seal(kek, e.nonce, r.value) == e.encrypted_keyfile_content
  {
    match Open(kek, e.nonce, e.encrypted_keyfile_content)
    case Some(p) => SealOpen(kek, e.nonce, e.encrypted_keyfile_content); Ok(p)
    case None => Err
  }

  /** `KeyEncryptionKey::encrypt(key)`: `nonce` is the RNG draw. */
  function EncryptKek(kek: KeyEncryptionKey, key: Bytes32, nonce: Bytes24): (e: EncryptedKek)
    ensures e.nonce == nonce && |e.ciphertext| == WRAPPED_KEK_LEN
    ensures !KekDecryptPanics(e, key) && DecryptKek(e, key) == Ok(kek)
  {
    OpenSeal(key, nonce, kek);
    EncryptedKek(Seal(key, nonce, kek), nonce)
  }

  /** The `expect("KEK should be 32 bytes in length")` in `EncryptedKek::decrypt`
      fires: the ciphertext authenticates, but not to 32 bytes. */
  predicate KekDecryptPanics(e: EncryptedKek, key: Bytes32)
  {
    match Open(key, e.nonce, e.ciphertext)
    case Some(p) => |p| != 32
    case None => false
  }

  /** `EncryptedKek::decrypt`. */
  function DecryptKek(e: EncryptedKek, key: Bytes32): (r: Result<KeyEncryptionKey>)
    requires !KekDecryptPanics(e, key)
    ensures r.Ok? <==> Open(key, e.nonce, e.ciphertext).Some?
    ensures r.Ok? ==> Seal(key, e.nonce, r.value) == e.ciphertext
  {
    match Open(key, e.nonce, e.ciphertext)
    case Some(p) => SealOpen(key, e.nonce, e.ciphertext); Ok(p)
    case None => Err
  }

  /** A wrapped KEK of the length `EncryptKek` produces can never trigger the
      panic, whichever key is tried. */
  lemma WellFormedKekNeverPanics(e: EncryptedKek, key: Bytes32)
    requires |e.ciphertext| == WRAPPED_KEK_LEN
    ensures !KekDecryptPanics(e, key)
  {
  }
}
