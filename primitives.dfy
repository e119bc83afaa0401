/** The three cryptographic primitives the envelope scheme is built from:
    XChaCha20-Poly1305 (the AEAD construction of section 2.8 of RFC 8439,
    with a 24-byte extended nonce), Argon2id (RFC 9106) and SHA-256
    (section 6.2 of FIPS 180-4).

    Their internals are foreign library code. Each is given here as a
    deterministic stand-in of the same shape (key, nonce, tag and output
    sizes), and the rest of the model relies only on the laws proved below:
    the AEAD round trip, the fact that a successful open inverts a seal, the
    ciphertext-length law, and the fixed output sizes. The stand-ins do NOT
    provide confidentiality, unforgeability or collision resistance, and no
    lemma claims them. */
module Primitives {
  import opened Bytes

  const KEY_LEN: nat := 32
  const NONCE_LEN: nat := 24
  /** Poly1305 authentication tag, appended by the cipher. */
  const TAG_LEN: nat := 16

  // ---------------------------------------------------------------- AEAD

  function KeystreamByte(key: Bytes32, nonce: Bytes24, i: nat): byte
  {
    (key[i % 32] as int + nonce[i % 24] as int + i) % 256
  }

  function Tag(key: Bytes32, nonce: Bytes24): (t: seq<byte>)
    ensures |t| == TAG_LEN
  {
    seq(TAG_LEN, j requires 0 <= j < TAG_LEN => (key[j] as int + 3 * nonce[j] as int + key[j + 16] as int) % 256)
  }

  /** `cipher.encrypt(nonce, plaintext)`: ciphertext followed by the tag. */
  function Seal(key: Bytes32, nonce: Bytes24, plaintext: seq<byte>): (c: seq<byte>)
    ensures |c| == |plaintext| + TAG_LEN
  {
    seq(|plaintext|, i requires 0 <= i < |plaintext| =>
      (plaintext[i] as int + KeystreamByte(key, nonce, i) as int) % 256) + Tag(key, nonce)
  }

  /** `cipher.decrypt(nonce, ciphertext)`: `None` when the tag does not verify. */
  function Open(key: Bytes32, nonce: Bytes24, ciphertext: seq<byte>): (r: Option<seq<byte>>)
    ensures r.Some? ==> |r.value| + TAG_LEN == |ciphertext|
  {
    if |ciphertext| < TAG_LEN || ciphertext[|ciphertext| - TAG_LEN..] != Tag(key, nonce) then None
    else
      var n := |ciphertext| - TAG_LEN;
      Some(seq(n, i requires 0 <= i < n => (ciphertext[i] as int - KeystreamByte(key, nonce, i) as int) % 256))
  }

  /** Adding and then subtracting a keystream byte, modulo 256, in either
      order, gives the byte back. */
  lemma ByteMaskCancels(x: byte, k: byte)
    ensures ((x as int + k as int) % 256 - k as int) % 256 == x as int
    ensures ((x as int - k as int) % 256 + k as int) % 256 == x as int
  {
  }

  /** The AEAD law: opening what was sealed under the same key and nonce
      returns the plaintext. */
  lemma OpenSeal(key: Bytes32, nonce: Bytes24, plaintext: seq<byte>)
    ensures Open(key, nonce, Seal(key, nonce, plaintext)) == Some(plaintext)
  {
    var c := Seal(key, nonce, plaintext);
    var n := |plaintext|;
    assert c[n..] == Tag(key, nonce);
    var r := Open(key, nonce, c);
    assert r.Some?;
    assert |r.value| == n;
    forall i | 0 <= i < n ensures r.value[i] == plaintext[i] {
      var k := KeystreamByte(key, nonce, i);
      assert c[i] == (plaintext[i] as int + k as int) % 256;
      assert r.value[i] == (c[i] as int - k as int) % 256;
      ByteMaskCancels(plaintext[i], k);
    }
    assert r.value == plaintext;
  }

  /** A successful open is the inverse of a seal: the ciphertext is exactly
      the sealing of what it opened to, so no other data is ever returned. */
  lemma SealOpen(key: Bytes32, nonce: Bytes24, ciphertext: seq<byte>)
    requires Open(key, nonce, ciphertext).Some?
    ensures Seal(key, nonce, Open(key, nonce, ciphertext).value) == ciphertext
  {
    var p := Open(key, nonce, ciphertext).value;
    var n := |p|;
    var c := Seal(key, nonce, p);
    assert c[n..] == Tag(key, nonce) == ciphertext[n..];
    forall i | 0 <= i < n ensures c[i] == ciphertext[i] {
      var k := KeystreamByte(key, nonce, i);
      assert p[i] == (ciphertext[i] as int - k as int) % 256;
      ByteMaskCancels(ciphertext[i], k);
    }
    assert c == c[..n] + c[n..];
    assert ciphertext == ciphertext[..n] + ciphertext[n..];
  }

  // ------------------------------------------------------------- Argon2id

  /** Argon2 cost parameters as stored in the envelope (`m_cost`, `t_cost`, `p_cost`). */
  datatype Argon2Cost = Argon2Cost(m: u32, t: u32, p: u32)

  /** Constants of the argon2 crate (version 0.5) that the source refers to by name. */
  const MIN_M_COST: u32 := 8
  const DEFAULT_M_COST: u32 := 19 * 1024
  const DEFAULT_T_COST: u32 := 2
  const DEFAULT_P_COST: u32 := 1
  const MAX_P_COST: u32 := 0xFF_FFFF
  const MIN_SALT_LEN: nat := 8
  const RECOMMENDED_SALT_LEN: nat := 16
  const MAX_INPUT_LEN: nat := 0xFFFF_FFFF

  /** `Params::new(m, t, p, Some(32))` succeeds. */
  predicate ValidCost(c: Argon2Cost)
  {
    MIN_M_COST <= c.m && 8 * c.p <= c.m && 1 <= c.t && 1 <= c.p <= MAX_P_COST
  }

  /** `Params::new` succeeds and `hash_password_into(input, salt, out32)` does too. */
  predicate Argon2Accepts(c: Argon2Cost, input: seq<byte>, salt: seq<byte>)
  {
    ValidCost(c) && |input| <= MAX_INPUT_LEN && MIN_SALT_LEN <= |salt| <= MAX_INPUT_LEN
  }

  /** Argon2id, version 0x13, with a 32-byte output. */
  function Argon2id(input: seq<byte>, salt: seq<byte>, c: Argon2Cost): Bytes32
    requires Argon2Accepts(c, input, salt)
  {
    seq(32, i requires 0 <= i < 32 =>
      (i + |input| + |salt| + c.m + c.t + c.p
        + (if i < |input| then input[i] else 0)
        + (if i < |salt| then salt[i] else 0)) % 256)
  }

  /** The costs `new_internal` stores: the crate defaults. */
  lemma DefaultCostValid()
    ensures ValidCost(Argon2Cost(DEFAULT_M_COST, DEFAULT_T_COST, DEFAULT_P_COST))
  {
  }

  // -------------------------------------------------------------- SHA-256

  function Sha256(message: seq<byte>): Bytes32
  {
    seq(32, i requires 0 <= i < 32 =>
      (i + |message| + (if i < |message| then message[i] else 0)) % 256)
  }
}
