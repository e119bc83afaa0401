/** The envelope: the record of one encrypted keyfile and the factors that
    each wrap the same key-encrypting key, and its serialised form, in which
    every binary field is a Base64 string. */
module Params {
  import opened Bytes
  import Primitives
  import Base64

  /** The disk keyfile, encrypted under the KEK. */
  datatype EncryptedKeyfile = EncryptedKeyfile(encrypted_keyfile_content: seq<byte>, nonce: Bytes24)

  /** The KEK, encrypted under one factor's wrapping key. */
  datatype EncryptedKek = EncryptedKek(ciphertext: seq<byte>, nonce: Bytes24)

  /** The password factor. */
  datatype PasswordAuthParameters = PasswordAuthParameters(
    m_cost: u32, t_cost: u32, p_cost: u32,
    salt: seq<byte>,
    encrypted_kek: EncryptedKek)
  {
    function Cost(): Primitives.Argon2Cost { Primitives.Argon2Cost(m_cost, t_cost, p_cost) }
  }

  /** One hardware-token slot: its own seed, costs, salt and wrapped KEK. */
  datatype YubikeyAuthSlot = YubikeyAuthSlot(
    challenge_seed: seq<byte>,
    m_cost: u32, t_cost: u32, p_cost: u32,
    salt: seq<byte>,
    encrypted_kek: EncryptedKek)
  {
    function Cost(): Primitives.Argon2Cost { Primitives.Argon2Cost(m_cost, t_cost, p_cost) }
  }

  datatype YubikeyAuthParams = YubikeyAuthParams(slots: seq<YubikeyAuthSlot>)

  /** The envelope root: exactly one keyfile, exactly one password factor,
      and any number of token slots. */
  datatype EncryptionParams = EncryptionParams(
    keyfile: EncryptedKeyfile,
    password_auth: PasswordAuthParameters,
    yubikey_auth: YubikeyAuthParams)

  // ------------------------------------------------------ serialised form

  datatype StoredKeyfile = StoredKeyfile(encrypted_keyfile_content: string, nonce: string)
  datatype StoredKek = StoredKek(ciphertext: string, nonce: string)
  datatype StoredPasswordAuth = StoredPasswordAuth(
    m_cost: u32, t_cost: u32, p_cost: u32, salt: string, encrypted_kek: StoredKek)
  datatype StoredSlot = StoredSlot(
    challenge_seed: string, m_cost: u32, t_cost: u32, p_cost: u32, salt: string,
    encrypted_kek: StoredKek)
  datatype StoredParams = StoredParams(
    keyfile: StoredKeyfile, password_auth: StoredPasswordAuth, slots: seq<StoredSlot>)

  /** A fixed-size `[u8; 24]` field: the Base64 text must decode to exactly 24 bytes. */
  function DecodeNonce(s: string): (r: Option<Bytes24>)
    ensures r.Some? ==> Base64.Decode(s) == Some(r.value)
  {
    match Base64.Decode(s)
    case Some(b) => if |b| == 24 then Some(b) else None
    case None => None
  }

  function StoreKeyfile(k: EncryptedKeyfile): StoredKeyfile
  {
    StoredKeyfile(Base64.Encode(k.encrypted_keyfile_content), Base64.Encode(k.nonce))
  }

  function LoadKeyfile(s: StoredKeyfile): Option<EncryptedKeyfile>
  {
    match (Base64.Decode(s.encrypted_keyfile_content), DecodeNonce(s.nonce))
    case (Some(c), Some(n)) => Some(EncryptedKeyfile(c, n))
    case _ => None
  }

  function StoreKek(k: EncryptedKek): StoredKek
  {
    StoredKek(Base64.Encode(k.ciphertext), Base64.Encode(k.nonce))
  }

  function LoadKek(s: StoredKek): Option<EncryptedKek>
  {
    match (Base64.Decode(s.ciphertext), DecodeNonce(s.nonce))
    case (Some(c), Some(n)) => Some(EncryptedKek(c, n))
    case _ => None
  }

  function StorePassword(p: PasswordAuthParameters): StoredPasswordAuth
  {
    StoredPasswordAuth(p.m_cost, p.t_cost, p.p_cost, Base64.Encode(p.salt), StoreKek(p.encrypted_kek))
  }

  function LoadPassword(s: StoredPasswordAuth): Option<PasswordAuthParameters>
  {
    match (Base64.Decode(s.salt), LoadKek(s.encrypted_kek))
    case (Some(salt), Some(k)) => Some(PasswordAuthParameters(s.m_cost, s.t_cost, s.p_cost, salt, k))
    case _ => None
  }

  function StoreSlot(y: YubikeyAuthSlot): StoredSlot
  {
    StoredSlot(Base64.Encode(y.challenge_seed), y.m_cost, y.t_cost, y.p_cost,
               Base64.Encode(y.salt), StoreKek(y.encrypted_kek))
  }

  function LoadSlot(s: StoredSlot): Option<YubikeyAuthSlot>
  {
    match (Base64.Decode(s.challenge_seed), Base64.Decode(s.salt), LoadKek(s.encrypted_kek))
    case (Some(seed), Some(salt), Some(k)) =>
      Some(YubikeyAuthSlot(seed, s.m_cost, s.t_cost, s.p_cost, salt, k))
    case _ => None
  }

  function StoreSlots(ys: seq<YubikeyAuthSlot>): (r: seq<StoredSlot>)
    ensures |r| == |ys|
  {
    if ys == [] then [] else [StoreSlot(ys[0])] + StoreSlots(ys[1..])
  }

  /** Loading a list fails as a whole if any one slot fails to load. */
  function LoadSlots(ss: seq<StoredSlot>): Option<seq<YubikeyAuthSlot>>
  {
    if ss == [] then Some([])
    else
      match (LoadSlot(ss[0]), LoadSlots(ss[1..]))
      case (Some(y), Some(ys)) => Some([y] + ys)
      case _ => None
  }

  function Store(p: EncryptionParams): StoredParams
  {
    StoredParams(StoreKeyfile(p.keyfile), StorePassword(p.password_auth), StoreSlots(p.yubikey_auth.slots))
  }

  function Load(s: StoredParams): Option<EncryptionParams>
  {
    match (LoadKeyfile(s.keyfile), LoadPassword(s.password_auth), LoadSlots(s.slots))
    case (Some(k), Some(pw), Some(ys)) => Some(EncryptionParams(k, pw, YubikeyAuthParams(ys)))
    case _ => None
  }

  // ----------------------------------------------------------- round trips

  lemma LoadStoreKek(k: EncryptedKek)
    ensures LoadKek(StoreKek(k)) == Some(k)
  {
    Base64.DecodeEncode(k.ciphertext);
    Base64.DecodeEncode(k.nonce);
  }

  lemma LoadStoreSlot(y: YubikeyAuthSlot)
    ensures LoadSlot(StoreSlot(y)) == Some(y)
  {
    Base64.DecodeEncode(y.challenge_seed);
    Base64.DecodeEncode(y.salt);
    LoadStoreKek(y.encrypted_kek);
  }

  lemma {:induction false} LoadStoreSlots(ys: seq<YubikeyAuthSlot>)
    ensures LoadSlots(StoreSlots(ys)) == Some(ys)
  {
    if ys != [] {
      LoadStoreSlot(ys[0]);
      LoadStoreSlots(ys[1..]);
      assert StoreSlots(ys)[1..] == StoreSlots(ys[1..]);
      assert ys == [ys[0]] + ys[1..];
    }
  }

  /** Reading back a written envelope gives the same envelope: every
      ciphertext, nonce, salt and seed survives its Base64 form. */
  lemma LoadStore(p: EncryptionParams)
    ensures Load(Store(p)) == Some(p)
  {
    Base64.DecodeEncode(p.keyfile.encrypted_keyfile_content);
    Base64.DecodeEncode(p.keyfile.nonce);
    Base64.DecodeEncode(p.password_auth.salt);
    LoadStoreKek(p.password_auth.encrypted_kek);
    LoadStoreSlots(p.yubikey_auth.slots);
  }

  /** A nonce field whose text decodes to anything but 24 bytes is rejected. */
  lemma WrongNonceLengthRejected(s: StoredKek)
    requires Base64.Decode(s.nonce).Some? && |Base64.Decode(s.nonce).value| != 24
    ensures LoadKek(s) == None
  {
  }
}
