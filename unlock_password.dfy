/** The password factor: Argon2id turns the password's UTF-8 bytes and a
    random salt into a 32-byte wrapping key, under which the KEK is
    encrypted. */
module UnlockPassword {
  import opened Bytes
  import opened Primitives
  import opened Params
  import opened Keyfile
  import Utf8

  /** The cost `new_internal` stores: the crate defaults. */
  const DefaultCost: Argon2Cost := Argon2Cost(DEFAULT_M_COST, DEFAULT_T_COST, DEFAULT_P_COST)

  /** The key Argon2id derives from a KDF input under a record's stored salt and costs. */
  function WrappingKey(p: PasswordAuthParameters, input: seq<byte>): Bytes32
    requires Argon2Accepts(p.Cost(), input, p.salt)
  {
    Argon2id(input, p.salt, p.Cost())
  }

  /** `decrypt` neither panics in Argon2 (stored costs, salt length) nor on the
      length of the authenticated KEK. */
  predicate DecryptDefined(p: PasswordAuthParameters, input: seq<byte>)
  {
    Argon2Accepts(p.Cost(), input, p.salt) && !KekDecryptPanics(p.encrypted_kek, WrappingKey(p, input))
  }

  /** `new_internal`: `salt` (RECOMMENDED_SALT_LEN bytes) and `nonce` are the RNG draws. */
  function NewInternal(password: seq<byte>, kek: KeyEncryptionKey, salt: seq<byte>, nonce: Bytes24)
    : (p: PasswordAuthParameters)
    requires |salt| == RECOMMENDED_SALT_LEN && |password| <= MAX_INPUT_LEN
    ensures p.Cost() == DefaultCost && p.salt == salt && p.encrypted_kek.nonce == nonce
    ensures DecryptDefined(p, password) && DecryptInput(p, password) == Ok(kek)
  {
    var cost := DefaultCost;
    var key := Argon2id(password, salt, cost);
    PasswordAuthParameters(cost.m, cost.t, cost.p, salt, EncryptKek(kek, key, nonce))
  }

  /** `new`: the KDF input is exactly `password.as_bytes()`. */
  function New(password: string, kek: KeyEncryptionKey, salt: seq<byte>, nonce: Bytes24)
    : (p: PasswordAuthParameters)
    requires |salt| == RECOMMENDED_SALT_LEN && |Utf8.Encode(password)| <= MAX_INPUT_LEN
    ensures p.Cost() == DefaultCost && p.salt == salt && p.encrypted_kek.nonce == nonce
    ensures DecryptDefined(p, Utf8.Encode(password)) && Decrypt(p, password) == Ok(kek)
  {
    NewInternal(Utf8.Encode(password), kek, salt, nonce)
  }

  /** The body of `decrypt` on raw KDF input bytes. It fails only when the
      AEAD unwrap fails, and a KEK it returns is what the stored ciphertext
      seals under the key derived from the STORED salt and costs. */
  function DecryptInput(p: PasswordAuthParameters, input: seq<byte>): (r: Result<KeyEncryptionKey>)
    requires DecryptDefined(p, input)
    ensures r.Ok? <==> Open(WrappingKey(p, input), p.encrypted_kek.nonce, p.encrypted_kek.ciphertext).Some?
    ensures r.Ok? ==> Seal(WrappingKey(p, input), p.encrypted_kek.nonce, r.value) == p.encrypted_kek.ciphertext
  {
    DecryptKek(p.encrypted_kek, WrappingKey(p, input))
  }

  /** `decrypt(password)`: the KDF input is `password.as_bytes()`. */
  function Decrypt(p: PasswordAuthParameters, password: string): (r: Result<KeyEncryptionKey>)
    requires DecryptDefined(p, Utf8.Encode(password))
    ensures r.Ok? ==> Seal(WrappingKey(p, Utf8.Encode(password)), p.encrypted_kek.nonce, r.value)
                      == p.encrypted_kek.ciphertext
  {
    DecryptInput(p, Utf8.Encode(password))
  }

  /** A record written with ANY valid costs, not only today's defaults, is
      unlocked by its password: `decrypt` re-derives from what is stored. */
  lemma StoredCostRoundTrip(password: string, kek: KeyEncryptionKey, cost: Argon2Cost,
                            salt: seq<byte>, nonce: Bytes24)
    requires Argon2Accepts(cost, Utf8.Encode(password), salt)
    ensures var p := PasswordAuthParameters(cost.m, cost.t, cost.p, salt,
                       EncryptKek(kek, Argon2id(Utf8.Encode(password), salt, cost), nonce));
            DecryptDefined(p, Utf8.Encode(password)) && Decrypt(p, password) == Ok(kek)
  {
  }

  // ------------------------------------------------------ new_unsolveable

  /** `new_unsolveable`: 31 random bytes (`noise`) are pushed one by one,
      then a 0 byte, and the 32 bytes are the KDF input. */
  method NewUnsolveable(kek: KeyEncryptionKey, noise: seq<byte>, salt: seq<byte>, nonce: Bytes24)
    returns (p: PasswordAuthParameters)
    requires |noise| == 31 && |salt| == RECOMMENDED_SALT_LEN
    ensures p == NewInternal(noise + [0], kek, salt, nonce)
  {
    var fakePassword: seq<byte> := [];
    for i := 0 to 31
      invariant fakePassword == noise[..i]
    {
      fakePassword := fakePassword + [noise[i]];
    }
    fakePassword := fakePassword + [0];
    assert noise[..31] == noise;
    p := NewInternal(fakePassword, kek, salt, nonce);
  }

  /** As written, the slot is solvable by a `String`: whenever the 31 random
      bytes happen to be ASCII, the 32 bytes are the UTF-8 encoding of a
      string (0x00 is valid UTF-8), and that string unlocks the KEK. */
  lemma UnsolveableAcceptsSomeString(kek: KeyEncryptionKey, noise: seq<byte>, salt: seq<byte>, nonce: Bytes24)
    requires |noise| == 31 && |salt| == RECOMMENDED_SALT_LEN
    requires forall i :: 0 <= i < 31 ==> noise[i] < 0x80
    ensures exists s: string :: |s| == 32 && Utf8.Encode(s) == noise + [0]
                                && Decrypt(NewInternal(noise + [0], kek, salt, nonce), s) == Ok(kek)
  {
    var bytes := noise + [0];
    var s: string := seq(32, i requires 0 <= i < 32 => bytes[i] as char);
    Utf8.EncodeAscii(s);
    assert Utf8.Encode(s) == bytes;
  }

  /** The evidently intended construction: the last byte is 0xFF, which no
      UTF-8 encoding contains. */
  method NewUnsolveableFixed(kek: KeyEncryptionKey, noise: seq<byte>, salt: seq<byte>, nonce: Bytes24)
    returns (p: PasswordAuthParameters)
    requires |noise| == 31 && |salt| == RECOMMENDED_SALT_LEN
    ensures p == NewInternal(noise + [0xFF], kek, salt, nonce)
    ensures forall s: string :: Utf8.Encode(s) != noise + [0xFF]
  {
    var fakePassword: seq<byte> := [];
    for i := 0 to 31
      invariant fakePassword == noise[..i]
    {
      fakePassword := fakePassword + [noise[i]];
    }
    fakePassword := fakePassword + [0xFF];
    assert noise[..31] == noise;
    p := NewInternal(fakePassword, kek, salt, nonce);
    forall s: string ensures Utf8.Encode(s) != noise + [0xFF] {
      Utf8.NoFFByte(s);
      assert (noise + [0xFF])[31] == 0xFF;
    }
  }
}
