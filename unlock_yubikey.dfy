/** The hardware-token factor. Each slot stores a random seed; the
    challenge sent to the token is SHA-256(seed ‖ PIN bytes), and the
    token's 20-byte response is the Argon2id input that yields the slot's
    wrapping key. The challenge-response capability is injected as a
    function; random draws are parameters. */
module UnlockYubikey {
  import opened Bytes
  import opened Primitives
  import opened Params
  import opened Keyfile
  import Utf8

  /** The injected `FnMut([u8; 32]) -> Option<[u8; 20]>`; `None` means the
      token is absent or busy. */
  type ChalResp = Bytes32 -> Option<Bytes20>

  /** The lighter costs every slot stores: `MIN_M_COST * 64`, 16 passes, 8 lanes. */
  const SlotCost: Argon2Cost := Argon2Cost(MIN_M_COST * 64, 16, 8)

  /** Seed lengths come from `gen_range(64..128)`: 128 itself is excluded. */
  const MIN_SEED_LEN: nat := 64
  const SEED_LEN_BOUND: nat := 128

  /** The RNG draws of one slot enrolment: seed, salt, KEK-wrapping nonce. */
  datatype SlotDraw = SlotDraw(seed: seq<byte>, salt: seq<byte>, nonce: Bytes24)

  predicate ValidDraw(d: SlotDraw)
  {
    MIN_SEED_LEN <= |d.seed| < SEED_LEN_BOUND && |d.salt| == RECOMMENDED_SALT_LEN
  }

  /** The challenge, computed the same way at enrolment and at unlock. */
  function Challenge(seed: seq<byte>, pin: string): Bytes32
  {
    Sha256(seed + Utf8.Encode(pin))
  }

  /** Enrolment does not panic: the draw is in range and the token answers
      (`expect("Failed to perform challenge-response on Yubikey")`). */
  predicate EnrolDefined(pin: string, chalresp: ChalResp, d: SlotDraw)
  {
    ValidDraw(d) && chalresp(Challenge(d.seed, pin)).Some?
  }

  /** Unlocking a slot does not panic: when the token answers, the stored
      costs and salt are acceptable to Argon2 and the authenticated KEK has
      32 bytes. */
  predicate SlotDecryptDefined(s: YubikeyAuthSlot, pin: string, chalresp: ChalResp)
  {
    match chalresp(Challenge(s.challenge_seed, pin))
    case None => true
    case Some(resp) =>
      Argon2Accepts(s.Cost(), resp, s.salt)
      && !KekDecryptPanics(s.encrypted_kek, Argon2id(resp, s.salt, s.Cost()))
  }

  /** `YubikeyAuthSlot::new`. */
  function NewSlot(pin: string, chalresp: ChalResp, kek: KeyEncryptionKey, d: SlotDraw): (s: YubikeyAuthSlot)
    requires EnrolDefined(pin, chalresp, d)
    ensures s.challenge_seed == d.seed && MIN_SEED_LEN <= |s.challenge_seed| < SEED_LEN_BOUND
    ensures s.salt == d.salt && s.Cost() == SlotCost && s.encrypted_kek.nonce == d.nonce
    ensures SlotDecryptDefined(s, pin, chalresp) && SlotDecrypt(s, pin, chalresp) == Ok(kek)
  {
    var response := chalresp(Challenge(d.seed, pin)).value;
    var key := Argon2id(response, d.salt, SlotCost);
    YubikeyAuthSlot(d.seed, SlotCost.m, SlotCost.t, SlotCost.p, d.salt, EncryptKek(kek, key, d.nonce))
  }

  /** `YubikeyAuthSlot::decrypt`: a missing response is `Err`; a present one
      gives `Ok` exactly when the wrapped KEK authenticates under the key
      derived from it with the slot's stored salt and costs, and a KEK it
      returns is what the slot's ciphertext seals under that key. */
  function SlotDecrypt(s: YubikeyAuthSlot, pin: string, chalresp: ChalResp): (r: Result<KeyEncryptionKey>)
    requires SlotDecryptDefined(s, pin, chalresp)
    ensures chalresp(Challenge(s.challenge_seed, pin)).None? ==> r == Err
    ensures r.Ok? ==>
      var resp := chalresp(Challenge(s.challenge_seed, pin));
      resp.Some? && Argon2Accepts(s.Cost(), resp.value, s.salt)
      && Seal(Argon2id(resp.value, s.salt, s.Cost()), s.encrypted_kek.nonce, r.value) == s.encrypted_kek.ciphertext
    ensures var resp := chalresp(Challenge(s.challenge_seed, pin));
      resp.Some? ==> (r.Ok? <==> Open(Argon2id(resp.value, s.salt, s.Cost()), s.encrypted_kek.nonce, s.encrypted_kek.ciphertext).Some?)
  {
    match chalresp(Challenge(s.challenge_seed, pin))
    case None => Err
    case Some(response) => DecryptKek(s.encrypted_kek, Argon2id(response, s.salt, s.Cost()))
  }

  /** The token is asked one question only: two capabilities that give the
      same answer to this slot's challenge give the same unlock result. */
  lemma SlotDecryptAsksOneChallenge(s: YubikeyAuthSlot, pin: string, f: ChalResp, g: ChalResp)
    requires SlotDecryptDefined(s, pin, f)
    requires f(Challenge(s.challenge_seed, pin)) == g(Challenge(s.challenge_seed, pin))
    ensures SlotDecryptDefined(s, pin, g) && SlotDecrypt(s, pin, f) == SlotDecrypt(s, pin, g)
  {
  }

  /** `slots` were enrolled one per draw, in order, with the same PIN, token and KEK. */
  ghost predicate EnrolledWith(slots: seq<YubikeyAuthSlot>, pin: string, chalresp: ChalResp,
                               kek: KeyEncryptionKey, draws: seq<SlotDraw>)
  {
    |slots| == |draws|
    && (forall i :: 0 <= i < |draws| ==> EnrolDefined(pin, chalresp, draws[i]))
    && (forall i :: 0 <= i < |draws| ==> slots[i] == NewSlot(pin, chalresp, kek, draws[i]))
  }

  /** `new_with_slots(how_many, …)`: the loop that enrols `how_many` slots. */
  method NewWithSlots(howMany: nat, pin: string, chalresp: ChalResp, kek: KeyEncryptionKey,
                      draws: seq<SlotDraw>)
    returns (p: YubikeyAuthParams)
    requires |draws| == howMany
    requires forall i :: 0 <= i < howMany ==> EnrolDefined(pin, chalresp, draws[i])
    ensures |p.slots| == howMany
    ensures forall i :: 0 <= i < howMany ==> p.slots[i] == NewSlot(pin, chalresp, kek, draws[i])
  {
    var slots: seq<YubikeyAuthSlot> := [];
    for i := 0 to howMany
      invariant |slots| == i
      invariant forall j :: 0 <= j < i ==> slots[j] == NewSlot(pin, chalresp, kek, draws[j])
    {
      var slot := NewSlot(pin, chalresp, kek, draws[i]);
      slots := slots + [slot];
    }
    p := YubikeyAuthParams(slots);
  }

  /** `YubikeyAuthParams::decrypt` does not panic for the slot `pick` selects. */
  predicate DecryptDefined(y: YubikeyAuthParams, pin: string, chalresp: ChalResp, pick: nat)
  {
    y.slots != [] ==> pick < |y.slots| && SlotDecryptDefined(y.slots[pick], pin, chalresp)
  }

  /** `YubikeyAuthParams::decrypt`: `pick` is the index `choose` draws
      uniformly from the slots. An empty list is `Err`; otherwise exactly one
      slot, the picked one, is tried. */
  function Decrypt(y: YubikeyAuthParams, pin: string, chalresp: ChalResp, pick: nat): (r: Result<KeyEncryptionKey>)
    requires DecryptDefined(y, pin, chalresp, pick)
    ensures y.slots == [] ==> r == Err
    ensures y.slots != [] ==> pick < |y.slots| && r == SlotDecrypt(y.slots[pick], pin, chalresp)
    ensures r.Ok? ==> exists i :: 0 <= i < |y.slots| && SlotDecryptDefined(y.slots[i], pin, chalresp)
                                  && SlotDecrypt(y.slots[i], pin, chalresp) == r
  {
    if y.slots == [] then Err else SlotDecrypt(y.slots[pick], pin, chalresp)
  }

  /** The token is asked one question only, the picked slot's challenge:
      two capabilities that answer it alike give the same result. */
  lemma DecryptAsksOneChallenge(y: YubikeyAuthParams, pin: string, f: ChalResp, g: ChalResp, pick: nat)
    requires DecryptDefined(y, pin, f, pick) && y.slots != []
    requires pick < |y.slots|
    requires f(Challenge(y.slots[pick].challenge_seed, pin)) == g(Challenge(y.slots[pick].challenge_seed, pin))
    ensures DecryptDefined(y, pin, g, pick) && Decrypt(y, pin, f, pick) == Decrypt(y, pin, g, pick)
  {
    SlotDecryptAsksOneChallenge(y.slots[pick], pin, f, g);
  }

  /** Exactly one slot is tried: replacing any slot other than the picked
      one leaves the result unchanged. */
  lemma DecryptIgnoresOtherSlots(y: YubikeyAuthParams, pin: string, chalresp: ChalResp, pick: nat,
                                 j: nat, other: YubikeyAuthSlot)
    requires DecryptDefined(y, pin, chalresp, pick)
    requires j < |y.slots| && j != pick
    ensures DecryptDefined(YubikeyAuthParams(y.slots[j := other]), pin, chalresp, pick)
    ensures Decrypt(YubikeyAuthParams(y.slots[j := other]), pin, chalresp, pick) == Decrypt(y, pin, chalresp, pick)
  {
    assert y.slots[j := other][pick] == y.slots[pick];
  }

  /** Every enrolled slot unlocks: with the enrolment PIN and the same token,
      whichever slot is picked yields the enrolment KEK. */
  lemma EnrolledSlotsUnlock(slots: seq<YubikeyAuthSlot>, pin: string, chalresp: ChalResp,
                            kek: KeyEncryptionKey, draws: seq<SlotDraw>, pick: nat)
    requires EnrolledWith(slots, pin, chalresp, kek, draws)
    requires pick < |slots|
    ensures DecryptDefined(YubikeyAuthParams(slots), pin, chalresp, pick)
    ensures Decrypt(YubikeyAuthParams(slots), pin, chalresp, pick) == Ok(kek)
  {
    assert slots[pick] == NewSlot(pin, chalresp, kek, draws[pick]);
  }

  /** What `NewWithSlots` returns satisfies `EnrolledWith`. */
  lemma NewWithSlotsEnrolled(p: YubikeyAuthParams, pin: string, chalresp: ChalResp,
                             kek: KeyEncryptionKey, draws: seq<SlotDraw>)
    requires forall i :: 0 <= i < |draws| ==> EnrolDefined(pin, chalresp, draws[i])
    requires |p.slots| == |draws|
    requires forall i :: 0 <= i < |draws| ==> p.slots[i] == NewSlot(pin, chalresp, kek, draws[i])
    ensures EnrolledWith(p.slots, pin, chalresp, kek, draws)
  {
  }
}
