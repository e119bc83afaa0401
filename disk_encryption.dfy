/** Unlocking reverses the chain: a factor yields the KEK, the KEK decrypts
    the keyfile. The PIN path asks the hardware token through the
    `ykchalresp` helper, whose standard output must be exactly 40 hex
    digits and a newline. The helper itself is an injected function from
    challenge to process outcome. */
module DiskEncryption {
  import opened Bytes
  import opened Primitives
  import opened Params
  import opened Keyfile
  import Utf8
  import UnlockPassword
  import UnlockYubikey

  // ------------------------------------------------ the response parser

  /** The ASCII line feed that `strip_suffix("\n")` removes. */
  const NEWLINE: byte := 0x0A

  /** What `wait_with_output` gives: an I/O error, or an exit status and stdout. */
  datatype ProcessOutput = WaitFailed | Exited(success: bool, stdout: seq<byte>)

  /** `0-9`, `A-F` or `a-f`. */
  predicate IsHexDigit(b: byte)
  {
    48 <= b <= 57 || 65 <= b <= 70 || 97 <= b <= 102
  }

  function HexValue(b: byte): (v: nat)
    requires IsHexDigit(b)
    ensures v < 16
  {
    if b <= 57 then b - 48 else if b <= 70 then b - 65 + 10 else b - 97 + 10
  }

  /** The lower-case digit for a nibble. */
  function HexDigit(v: nat): (b: byte)
    requires v < 16
    ensures IsHexDigit(b) && HexValue(b) == v
  {
    if v < 10 then 48 + v else 97 + v - 10
  }

  /** Hex text to bytes: two digits per byte, high nibble first. Odd
      lengths and non-digits are rejected. */
  function HexDecode(s: seq<byte>): (r: Option<seq<byte>>)
    ensures r.Some? <==> |s| % 2 == 0 && forall i :: 0 <= i < |s| ==> IsHexDigit(s[i])
    ensures r.Some? ==> 2 * |r.value| == |s|
    decreases |s|
  {
    if |s| == 0 then Some([])
    else if |s| == 1 then None
    else if !IsHexDigit(s[0]) || !IsHexDigit(s[1]) then None
    else
      var tail := HexDecode(s[2..]);
      assert tail.Some? <==> |s| % 2 == 0 && forall i :: 2 <= i < |s| ==> IsHexDigit(s[i]) by {
        assert forall i :: 2 <= i < |s| ==> s[i] == s[2..][i - 2];
      }
      match tail
      case None => None
      case Some(rest) => Some([HexValue(s[0]) * 16 + HexValue(s[1])] + rest)
  }

  /** Bytes to lower-case hex text, the inverse of `HexDecode`. */
  function HexEncode(b: seq<byte>): (s: seq<byte>)
    ensures |s| == 2 * |b|
    decreases |b|
  {
    if b == [] then [] else [HexDigit(b[0] / 16), HexDigit(b[0] % 16)] + HexEncode(b[1..])
  }

  lemma {:induction false} HexDecodeEncode(b: seq<byte>)
    ensures HexDecode(HexEncode(b)) == Some(b)
    decreases |b|
  {
    if b != [] {
      var s := HexEncode(b);
      HexDecodeEncode(b[1..]);
      assert s[2..] == HexEncode(b[1..]);
      assert b == [b[0]] + b[1..];
    }
  }

  /** The closure inside `try_keyfile_from_pin`: a failed wait or a non-zero
      exit gives `None`; otherwise stdout must end in a newline, the rest must
      be hex, and it must decode to exactly 20 bytes. (Stdout is read with
      lossy UTF-8 conversion; as every accepted character is ASCII, that
      conversion cannot change the verdict, so the model reads the bytes.) */
  function ParseResponse(o: ProcessOutput): (r: Option<Bytes20>)
    ensures r.Some? <==> o.Exited? && o.success && |o.stdout| == 41 && o.stdout[40] == NEWLINE
                         && forall i :: 0 <= i < 40 ==> IsHexDigit(o.stdout[i])
    ensures r.Some? ==> HexDecode(o.stdout[..40]) == Some(r.value)
  {
    match o
    case WaitFailed => None
    case Exited(success, stdout) =>
      if !success then None
      else if |stdout| == 0 || stdout[|stdout| - 1] != NEWLINE then None
      else
        match HexDecode(stdout[..|stdout| - 1])
        case None => None
        case Some(bytes) => if |bytes| == 20 then Some(bytes) else None
  }

  /** A helper that exits successfully and prints the response as hex and a
      newline is understood: the parser recovers exactly that response. */
  lemma ParseResponseOfHex(r: Bytes20)
    ensures ParseResponse(Exited(true, HexEncode(r) + [NEWLINE])) == Some(r)
  {
    HexDecodeEncode(r);
    assert (HexEncode(r) + [NEWLINE])[..40] == HexEncode(r);
  }

  /** The challenge-response capability the PIN path hands to the token
      factor: run the helper on the challenge and parse what it prints. */
  function TokenOf(run: Bytes32 -> ProcessOutput): UnlockYubikey.ChalResp
  {
    c => ParseResponse(run(c))
  }

  // --------------------------------------------------------- unlocking

  /** `try_keyfile_from_password` does not panic. */
  predicate PasswordDefined(p: EncryptionParams, pw: string)
  {
    UnlockPassword.DecryptDefined(p.password_auth, Utf8.Encode(pw))
  }

  /** `try_keyfile_from_password`: `Ok` exactly when the password factor
      yields a KEK and that KEK authenticates the keyfile; the bytes returned
      are the keyfile plaintext the stored ciphertext seals. */
  function TryKeyfileFromPassword(p: EncryptionParams, pw: string): (r: Result<seq<byte>>)
    requires PasswordDefined(p, pw)
    ensures r.Ok? <==> UnlockPassword.Decrypt(p.password_auth, pw).Ok?
                       && Open(UnlockPassword.Decrypt(p.password_auth, pw).value,
                               p.keyfile.nonce, p.keyfile.encrypted_keyfile_content).Some?
    ensures r.Ok? ==> Seal(UnlockPassword.Decrypt(p.password_auth, pw).value, p.keyfile.nonce, r.value)
                      == p.keyfile.encrypted_keyfile_content
  {
    match UnlockPassword.Decrypt(p.password_auth, pw)
    case Err => Err
    case Ok(kek) => DecryptKeyfile(p.keyfile, kek)
  }

  /** `try_keyfile_from_pin` does not panic for the slot `pick` selects. */
  predicate PinDefined(p: EncryptionParams, pin: string, run: Bytes32 -> ProcessOutput, pick: nat)
  {
    UnlockYubikey.DecryptDefined(p.yubikey_auth, pin, TokenOf(run), pick)
  }

  /** `try_keyfile_from_pin`, with the helper as `run` and the random slot
      index as `pick`: the same two stages through the token factor. */
  function TryKeyfileFromPin(p: EncryptionParams, pin: string, run: Bytes32 -> ProcessOutput, pick: nat)
    : (r: Result<seq<byte>>)
    requires PinDefined(p, pin, run, pick)
    ensures p.yubikey_auth.slots == [] ==> r == Err
    ensures r.Ok? <==> UnlockYubikey.Decrypt(p.yubikey_auth, pin, TokenOf(run), pick).Ok?
                       && Open(UnlockYubikey.Decrypt(p.yubikey_auth, pin, TokenOf(run), pick).value,
                               p.keyfile.nonce, p.keyfile.encrypted_keyfile_content).Some?
    ensures r.Ok? ==> Seal(UnlockYubikey.Decrypt(p.yubikey_auth, pin, TokenOf(run), pick).value,
                           p.keyfile.nonce, r.value) == p.keyfile.encrypted_keyfile_content
  {
    match UnlockYubikey.Decrypt(p.yubikey_auth, pin, TokenOf(run), pick)
    case Err => Err
    case Ok(kek) => DecryptKeyfile(p.keyfile, kek)
  }

  /** End to end: an envelope whose keyfile was encrypted by `NewKeyfile`
      under a KEK that the password factor wraps, opened with the enrolment
      password, gives back the keyfile plaintext. */
  lemma PasswordUnlocksEnrolledEnvelope(p: EncryptionParams, plain: seq<byte>, authKey: Bytes32,
                                        nonce: Bytes24, password: string, salt: seq<byte>,
                                        kekNonce: Bytes24)
    requires |salt| == RECOMMENDED_SALT_LEN && |Utf8.Encode(password)| <= MAX_INPUT_LEN
    requires p.keyfile == NewKeyfile(plain, authKey, nonce).0
    requires p.password_auth == UnlockPassword.New(password, NewKeyfile(plain, authKey, nonce).1, salt, kekNonce)
    ensures PasswordDefined(p, password) && TryKeyfileFromPassword(p, password) == Ok(plain)
  {
    var (e, kek) := NewKeyfile(plain, authKey, nonce);
    assert UnlockPassword.Decrypt(p.password_auth, password) == Ok(kek);
  }

  /** End to end through the token: with slots enrolled under the envelope's
      KEK with this PIN and a helper that answers as at enrolment, whichever
      slot is picked, the keyfile plaintext comes back. */
  lemma PinUnlocksEnrolledEnvelope(p: EncryptionParams, plain: seq<byte>, authKey: Bytes32, nonce: Bytes24,
                                   pin: string, run: Bytes32 -> ProcessOutput,
                                   draws: seq<UnlockYubikey.SlotDraw>, pick: nat)
    requires p.keyfile == NewKeyfile(plain, authKey, nonce).0
    requires UnlockYubikey.EnrolledWith(p.yubikey_auth.slots, pin, TokenOf(run),
                                        NewKeyfile(plain, authKey, nonce).1, draws)
    requires pick < |p.yubikey_auth.slots|
    ensures PinDefined(p, pin, run, pick) && TryKeyfileFromPin(p, pin, run, pick) == Ok(plain)
  {
    var (e, kek) := NewKeyfile(plain, authKey, nonce);
    UnlockYubikey.EnrolledSlotsUnlock(p.yubikey_auth.slots, pin, TokenOf(run), kek, draws, pick);
  }
}
