# arch-initramfs-ui, modelled in Dafny

This project models the logic at the heart of an initramfs boot menu for an
encrypted Arch Linux disk. It covers four parts.

1. **Envelope encryption (`disk-crypto`).**
   - A random 32-byte key-encrypting key (KEK) encrypts the disk keyfile with XChaCha20-Poly1305.
   - The KEK is wrapped once per factor:
     - a password, whose UTF-8 bytes go through Argon2id;
     - any number of hardware-token slots. A slot sends the token the challenge SHA-256(seed ‖ PIN); the token's 20-byte response goes through Argon2id.
   - Unlocking reverses the chain. The PIN path parses the `ykchalresp` helper's output: 40 hex digits and a newline.
   - The envelope's binary fields are stored as Base64 (section 4 of RFC 4648).
2. **The boot menu's login flow (`boot-menu`).**
   - The shared `LoginState`, the stack of dialog layers and the unlocked keyfile, changed by the UI callbacks one at a time:
     - prompt submit, verification success or failure;
     - the background poller's prompt swap;
     - "Try logging in again" and error dismissal.
   - The poller's loop and the PIN path's three attempts.
3. **The algorithmic parts of the menu's exits.**
   - Finding the Windows entry through `BootOrder` and formatting it for `efibootmgr -n` (section 3.3 of the UEFI 2.10 specification).
   - The `OsIndicationsSupported` bit-0 check (section 8.5.4 of UEFI 2.10).
   - The four-pass wipe of the keyfile left on disk.
4. **Keyboard input in the framebuffer backend (`egui-fb-backend`).**
   - The tables from Linux keycodes to egui keys, modifier changes and text, under caps lock, num lock and shift.
   - The modifier state kept across frames and updated in place.
   - The events pushed per key, and the pointer-button table.

How the source's forms map onto Dafny:
- Pure code becomes datatypes, functions and lemmas.
- Code that updates state in place becomes classes and methods, each specified by a function:
  - the boot menu's user data and layer stack (`BootMenu.Menu`);
  - the keyfile on disk (`Exits.KeyfileOnDisk`);
  - the backend's input state (`FbInput.InputState`).
- Loops become `while` loops with invariants:
  - slot enrolment;
  - the unsolvable password;
  - the poller;
  - the Windows lookup;
  - the wipe.

The cryptographic primitives are foreign code. `Primitives` gives each one a deterministic stand-in of the right shape:
- 32-byte keys;
- 24-byte nonces;
- a 16-byte tag;
- 32-byte Argon2id and SHA-256 outputs.

The rest of the model uses only the laws proved about those stand-ins: the AEAD round trip, "a successful open inverts a seal", and the length laws. No lemma claims confidentiality or unforgeability.

Random draws, the token and the helper process are parameters:
- random draws: keys, nonces, salts, the seed and the chosen slot;
- the token: a function from challenge to optional response;
- the helper process: a function from challenge to process outcome.

A panic (`expect`) in `disk-crypto` becomes a precondition that says when it does not fire. Every `Err(())` path is a `Result` value.

## Model

| member | source | states |
|---|---|---|
| Primitives.Seal | disk-crypto/src/keyfile.rs:14-19 | the ciphertext is the plaintext's length plus the 16-byte tag |
| Primitives.Open | disk-crypto/src/keyfile.rs:37-39 | a successful open returns exactly 16 bytes fewer than the ciphertext |
| Primitives.OpenSeal | disk-crypto/src/keyfile.rs:99-109 | opening what was sealed under the same key and nonce returns the plaintext |
| Primitives.SealOpen | disk-crypto/src/keyfile.rs:37-40 | whatever a successful open returns seals back to exactly the ciphertext, so no other data is ever released |
| Primitives.DefaultCostValid | disk-crypto/src/unlock_password.rs:36-49 | the crate's default costs are accepted, so building the parameters never panics |
| Base64.ValueOfCharOf | disk-crypto/src/params.rs:17 | reading an alphabet character gives back the 6-bit value it was written for |
| Base64.Encode | disk-crypto/src/params.rs:17 | the text is a whole number of 4-character groups, empty exactly for empty data |
| Base64.DecodeEncodeGroup | disk-crypto/src/params.rs:17 | a full group of three bytes survives encoding and strict decoding |
| Base64.DecodeEncodeOne | disk-crypto/src/params.rs:17 | a one-byte tail (two characters and `==`) decodes back to its byte |
| Base64.DecodeEncodeTwo | disk-crypto/src/params.rs:17 | a two-byte tail (three characters and `=`) decodes back to its bytes |
| Base64.DecodeEncode | disk-crypto/src/params.rs:17-18 | every byte string survives Base64 encoding and decoding |
| Params.DecodeNonce | disk-crypto/src/params.rs:20-22 | a nonce field is accepted only as Base64 text of exactly 24 bytes |
| Params.LoadStoreKek | disk-crypto/src/params.rs:81-87 | a wrapped KEK (ciphertext and nonce) reads back as written |
| Params.LoadStoreSlot | disk-crypto/src/params.rs:56-77 | a token slot, with its own seed, costs, salt and wrapped KEK, reads back as written |
| Params.LoadStoreSlots | disk-crypto/src/params.rs:50-52 | any list of slots, the empty one included, reads back as written |
| Params.LoadStore | disk-crypto/src/params.rs:5-9 | the whole envelope (one keyfile, one password factor, the slots) reads back as written |
| Params.WrongNonceLengthRejected | disk-crypto/src/params.rs:85-86 | a nonce whose text decodes to anything but 24 bytes makes the read fail |
| Keyfile.NewKeyfile | disk-crypto/src/keyfile.rs:8-30 | the KEK returned is the generated key, the stored nonce is the one drawn, and decrypting with that KEK gives the plaintext back |
| Keyfile.DecryptKeyfile | disk-crypto/src/keyfile.rs:32-41 | `Err` exactly when authentication fails; on success, the data is what the stored ciphertext seals |
| Keyfile.EncryptKek | disk-crypto/src/keyfile.rs:51-65 | the wrap stores the drawn nonce, is 48 bytes long, never trips the length panic, and unwraps under the same key to the same KEK |
| Keyfile.DecryptKek | disk-crypto/src/keyfile.rs:70-86 | `Err` exactly when authentication fails; a KEK returned is what the ciphertext seals under that key |
| Keyfile.WellFormedKekNeverPanics | disk-crypto/src/keyfile.rs:79-81 | a 48-byte wrapped KEK cannot authenticate to anything but 32 bytes, so the `expect` never fires |
| UnlockPassword.NewInternal | disk-crypto/src/unlock_password.rs:35-68 | stores the default costs, the 16-byte salt and the drawn nonce, and the same KDF input unlocks the KEK |
| UnlockPassword.New | disk-crypto/src/unlock_password.rs:9-17 | the KDF input is the password's UTF-8 bytes, so `decrypt` with the same password returns the KEK |
| UnlockPassword.DecryptInput | disk-crypto/src/unlock_password.rs:73-88 | fails exactly when the AEAD unwrap fails; a KEK returned is sealed under the key derived from the stored salt and costs |
| UnlockPassword.Decrypt | disk-crypto/src/unlock_password.rs:70-89 | a KEK returned is sealed under the key Argon2id derives from the password's bytes with the stored parameters |
| UnlockPassword.StoredCostRoundTrip | disk-crypto/src/unlock_password.rs:73-82 | a record written with any acceptable costs, not only today's defaults, is unlocked by its password |
| UnlockPassword.NewUnsolveable | disk-crypto/src/unlock_password.rs:22-33 | the loop pushes the 31 drawn bytes, then 0; the record is `new_internal` of those 32 bytes |
| UnlockPassword.UnsolveableAcceptsSomeString | disk-crypto/src/unlock_password.rs:19-29 | when the 31 random bytes are ASCII, some 32-character string has exactly those bytes and unlocks the KEK |
| UnlockPassword.NewUnsolveableFixed | disk-crypto/src/unlock_password.rs:25-32 | with a final 0xFF byte, no string's UTF-8 encoding equals the KDF input |
| Utf8.EncodeChar | disk-crypto/src/unlock_password.rs:15 | each character encodes to 1 to 4 bytes, none of them 0xFF; ASCII encodes to itself |
| Utf8.NoFFByte | disk-crypto/src/unlock_password.rs:19-21 | the byte 0xFF occurs in no string's UTF-8 encoding |
| Utf8.EncodeAscii | disk-crypto/src/unlock_password.rs:29 | an ASCII string, 0x00 included, encodes to its own code points |
| UnlockYubikey.NewSlot | disk-crypto/src/unlock_yubikey.rs:41-96 | the seed is 64 to 127 bytes long; the slot stores the drawn salt and nonce and costs `MIN_M_COST*64`, 16, 8; the same PIN and token unlock the KEK |
| UnlockYubikey.SlotDecrypt | disk-crypto/src/unlock_yubikey.rs:98-128 | a missing response is `Err`; with a response, `Ok` exactly when the wrapped KEK authenticates under the derived key; a KEK returned is sealed under the key derived from the response to this slot's challenge with the stored salt and costs |
| UnlockYubikey.SlotDecryptAsksOneChallenge | disk-crypto/src/unlock_yubikey.rs:105-112 | the result depends on the token only through its answer to SHA-256(seed ‖ PIN) |
| UnlockYubikey.NewWithSlots | disk-crypto/src/unlock_yubikey.rs:12-27 | exactly `how_many` slots, the i-th made from the i-th draw with the same PIN, token and KEK |
| UnlockYubikey.NewWithSlotsEnrolled | disk-crypto/src/unlock_yubikey.rs:21-26 | what the enrolment loop returns is a list of slots enrolled with that PIN, token and KEK |
| UnlockYubikey.Decrypt | disk-crypto/src/unlock_yubikey.rs:29-37 | an empty list is `Err`; otherwise the result is exactly the unlock result of the one slot the draw picks |
| UnlockYubikey.DecryptAsksOneChallenge | disk-crypto/src/unlock_yubikey.rs:33-36 | the result depends on the token only through its answer to the picked slot's challenge, so the token is asked at most once |
| UnlockYubikey.DecryptIgnoresOtherSlots | disk-crypto/src/unlock_yubikey.rs:33-36 | replacing any slot other than the picked one leaves the result unchanged |
| UnlockYubikey.EnrolledSlotsUnlock | disk-crypto/src/unlock_yubikey.rs:138-165 | with the enrolment PIN and the same token, whichever slot is picked yields the enrolment KEK |
| DiskEncryption.HexValue | disk-crypto/src/disk_encryption.rs:29 | a hex digit is worth less than 16 |
| DiskEncryption.HexDigit | disk-crypto/src/disk_encryption.rs:29 | the digit written for a nibble is a hex digit the parser reads back as that nibble |
| DiskEncryption.HexDecode | disk-crypto/src/disk_encryption.rs:29 | accepts exactly even-length all-hex text, giving one byte per two digits |
| DiskEncryption.HexEncode | disk-crypto/src/disk_encryption.rs:28-29 | the helper's output format: two hex digits per byte |
| DiskEncryption.HexDecodeEncode | disk-crypto/src/disk_encryption.rs:29 | decoding the hex form of any bytes gives them back |
| DiskEncryption.ParseResponse | disk-crypto/src/disk_encryption.rs:23-32 | a response exactly when the helper exited successfully and printed 40 hex digits and a newline; it is what those digits spell |
| DiskEncryption.ParseResponseOfHex | disk-crypto/src/disk_encryption.rs:28-32 | a helper printing a response as hex and a newline is understood as that response |
| DiskEncryption.TryKeyfileFromPassword | disk-crypto/src/disk_encryption.rs:8-12 | `Ok` exactly when the password unwraps the KEK and the KEK authenticates the keyfile; the bytes are the keyfile plaintext |
| DiskEncryption.TryKeyfileFromPin | disk-crypto/src/disk_encryption.rs:14-38 | no slots is `Err`; `Ok` exactly when the token path unwraps the KEK and the KEK authenticates the keyfile; the bytes are the keyfile plaintext |
| DiskEncryption.PasswordUnlocksEnrolledEnvelope | disk-crypto/src/disk_encryption.rs:8-12 | an envelope built by `new` and a password factor, opened with that password, returns the original keyfile |
| DiskEncryption.PinUnlocksEnrolledEnvelope | disk-crypto/src/disk_encryption.rs:35-37 | with slots enrolled under the envelope's KEK and a helper that answers as at enrolment, any picked slot returns the original keyfile |
| Login.Pop | boot-menu/src/password_input.rs:120 | removes exactly the top layer; an empty stack stays empty |
| Login.Initial | boot-menu/src/main.rs:142-154 | no keyfile, the default `WaitingForLogin`, the password prompt on top, and a reachable screen |
| Login.Submit | boot-menu/src/password_input.rs:108-127 | `ValidatingLogin` is set before verification starts, the prompt is replaced by a "verifying" dialog, one more verification is pending |
| Login.Succeed | boot-menu/src/password_input.rs:128-141 | whatever the state, the keyfile is stored, the state is `LogInOkay`, and the top layer is replaced by the full menu |
| Login.Fail | boot-menu/src/password_input.rs:143-163 | whatever the state, the state is `LogInFail`, the top is replaced by the partial menu with an error on it, and the keyfile is untouched |
| Login.SwapTo | boot-menu/src/password_input.rs:45-95 | nothing happens unless waiting for login with the prompt absent; afterwards the prompt is present, and a change puts it on top |
| Login.TryAgain | boot-menu/src/exits.rs:59-69 | the state is `WaitingForLogin` and the partial menu is replaced by the password prompt |
| Login.Dismiss | boot-menu/src/password_input.rs:155-161 | the error dialog's OK removes that dialog and nothing else |
| Login.BelowTop | boot-menu/src/password_input.rs:151-161 | on a reachable screen, only a failed login has anything below the top layer, and then only the partial menu |
| Login.SubmitValid | boot-menu/src/password_input.rs:108-123 | submitting the prompt on top keeps the screen reachable |
| Login.ResultValid | boot-menu/src/password_input.rs:127-165 | a posted success or failure keeps the screen reachable, whichever state it lands in |
| Login.SwapValid | boot-menu/src/password_input.rs:45-95 | a poller swap keeps the screen reachable |
| Login.MenuValid | boot-menu/src/exits.rs:59-69 | "Try logging in again" and the error's OK keep the screen reachable |
| Login.StepPreservesValid | boot-menu/src/password_input.rs:101-253 | every enabled callback keeps the screen reachable |
| Login.RunPreservesValid | boot-menu/src/password_input.rs:133-135 | after any sequence of callbacks, the keyfile is present exactly when the login succeeded |
| Login.FullMenuHasKeyfile | boot-menu/src/exits.rs:117-121 | whenever the full menu is on screen, the keyfile is present |
| Login.SwapIdempotent | boot-menu/src/password_input.rs:57-67 | the same swap callback applied twice changes nothing the second time |
| Login.StepFollows | boot-menu/src/main.rs:83-95 | each callback moves the state along the four-state diagram; no single callback goes from waiting to `LogInOkay` |
| BootMenu.Menu.constructor | boot-menu/src/main.rs:142-154 | the user data and layers start as the initial screen |
| BootMenu.Menu.PopLayer | boot-menu/src/password_input.rs:120 | the layer stack loses its top; nothing else changes |
| BootMenu.Menu.AddLayer | boot-menu/src/password_input.rs:121-123 | the dialog is pushed on top; nothing else changes |
| BootMenu.Menu.OnSubmit | boot-menu/src/password_input.rs:181-199 | the fields become the submit step of the screen |
| BootMenu.Menu.OnSuccess | boot-menu/src/password_input.rs:209-222 | the fields become the success step of the screen |
| BootMenu.Menu.OnFailure | boot-menu/src/password_input.rs:224-245 | the fields become the failure step of the screen |
| BootMenu.Menu.OnSwap | boot-menu/src/password_input.rs:45-69 | the fields become the swap step of the screen |
| BootMenu.Menu.OnTryAgain | boot-menu/src/exits.rs:59-69 | the fields become the try-again step of the screen |
| BootMenu.Menu.OnDismiss | boot-menu/src/password_input.rs:236-241 | the fields become the dismiss step of the screen |
| BootMenu.Menu.Handle | boot-menu/src/main.rs:157-160 | one callback is one step, and a reachable screen stays reachable |
| PasswordInput.PollerAsWritten | boot-menu/src/password_input.rs:21-33 | breaks only if one iteration's two reads see waiting and then `LogInOkay`; when reads are at most one callback apart it never breaks; outcome and probe count are those of `AsWrittenRun` |
| PasswordInput.AsWrittenRun | boot-menu/src/password_input.rs:21-33 | one probe per iteration whose first read is waiting and which does not break, so at most one probe per two reads; a break needs waiting followed by `LogInOkay` |
| PasswordInput.AsWrittenIdleAfterLogin | boot-menu/src/password_input.rs:21-27 | once every read sees `LogInOkay`, the as-written poller neither breaks nor probes |
| PasswordInput.AsWrittenProbesWhileWaiting | boot-menu/src/password_input.rs:21-33 | while the login stays waiting the poller never breaks and probes once per two reads |
| PasswordInput.PollerFixed | boot-menu/src/password_input.rs:22-43 | breaks exactly when `LogInOkay` is observed, at the first such read, after one probe per waiting read before it |
| PasswordInput.OkayTwoCallbacksFromWaiting | boot-menu/src/password_input.rs:108-141 | from the waiting screen, `LogInOkay` is two callbacks away: a submit and its success |
| PasswordInput.PinWithRetries | boot-menu/src/password_input.rs:204-207 | one to three calls, stopping at the first `Ok`; the result is the last call's; `Err` only after three failures |
| Exits.ScanFrom | boot-menu/src/exits.rs:259-297 | the i-th entry is paired with bytes 2i and 2i+1; the first Windows entry wins; running out of bytes or an unreadable entry stops the scan; every earlier entry was passed over |
| Exits.LookupWindows | boot-menu/src/exits.rs:209-310 | an odd-length `BootOrder` is rejected; a found ID is two bytes of an even-length `BootOrder` |
| Exits.FindWindowsEntry | boot-menu/src/exits.rs:228-310 | the cursor loop returns the reference lookup's outcome |
| Exits.OddBootOrderRejected | boot-menu/src/exits.rs:245-254 | an odd byte length is rejected before any entry is examined |
| Exits.BootNextArg | boot-menu/src/exits.rs:342-345 | four upper-case hex digits that spell the little-endian value of the two ID bytes |
| Exits.CheckOsIndications | boot-menu/src/exits.rs:404-419 | a failed read stops; otherwise proceed exactly when bit 0 is set, and a refusal reports the little-endian value |
| Exits.LowBitIsFirstByte | boot-menu/src/exits.rs:413-414 | bit 0 of a little-endian value is bit 0 of its first byte |
| Exits.LeValueBound | boot-menu/src/exits.rs:413 | n little-endian bytes hold a value below 256^n, so eight bytes fit a u64 |
| Exits.Overwrite | boot-menu/src/exits.rs:173 | a write overwrites the bytes under the cursor and extends the file past its end |
| Exits.KeyfileOnDisk.constructor | boot-menu/src/exits.rs:128-135 | after `write_all` and the seek, the keyfile covers the start of the old file, which is not truncated, and the cursor is at 0 |
| Exits.KeyfileOnDisk.Rewind | boot-menu/src/exits.rs:169 | the cursor is at 0 and the content is unchanged |
| Exits.KeyfileOnDisk.Write | boot-menu/src/exits.rs:172-173 | a 512-byte chunk is written at the cursor and the cursor advances by 512 |
| Exits.ChunkNoise | boot-menu/src/exits.rs:171-173 | the k-th write of a pass lays its chunk at offset 512k |
| Exits.Wipe | boot-menu/src/exits.rs:165-175 | after four passes from offset 0, whole chunks cover at least the keyfile's length and less than one chunk more, all holding the last pass's noise; the file keeps its length unless the last chunk runs past its end, and every byte past the covered range is unchanged |
| Keys.ToModifiers | egui-fb-backend/src/keys.rs:16-26 | alt, shift and ctrl each iff either side is down; command follows ctrl; mac_cmd is always false |
| Keys.ToModifiersIgnoresLocks | egui-fb-backend/src/keys.rs:17-25 | caps lock and num lock do not reach egui's modifiers |
| Keys.KeycodeToText | egui-fb-backend/src/keys.rs:347-351 | never `Some("")`: an empty mapping becomes `None`, and any other text is the table's |
| KeyLaws.TablesAgreeEverywhere | egui-fb-backend/src/keys.rs:33-345 | for every keycode, the two tables agree on which keys are letters, which consult num lock, and which are modifiers |
| KeyLaws.LetterKeysTypeTheirLetter | egui-fb-backend/src/keys.rs:357-364 | a letter key's egui key ignores the modifiers, and it types its own letter, upper case iff caps lock XOR shift |
| KeyLaws.CapsLockOnlyAffectsLetters | egui-fb-backend/src/keys.rs:369-376 | caps lock changes neither key nor text of any non-letter key, shifted symbols included |
| KeyLaws.NumLockOnlyAffectsKeypad | egui-fb-backend/src/keys.rs:207-224 | num lock changes neither key nor text outside the eleven keypad keys |
| KeyLaws.KeypadDigitsWithNumlock | egui-fb-backend/src/keys.rs:285-343 | with num lock on, a keypad digit types its digit and is that digit's key |
| KeyLaws.KeypadDigitsWithoutNumlock | egui-fb-backend/src/keys.rs:108-201 | with num lock off, a keypad digit types nothing and is the navigation key of its legend (7 Home, 8 ArrowUp, 9 PageUp, 4 ArrowLeft, 6 ArrowRight, 1 End, 2 ArrowDown, 3 PageDown, 0 Insert), or no key for KP5 |
| KeyLaws.KeypadFiveAndDot | egui-fb-backend/src/keys.rs:134-202 | KP5 is `Num5` only with num lock on, KPDOT is `Delete` only with it off, and KPDOT types "." only with it on |
| KeyLaws.ModifierKeys | egui-fb-backend/src/keys.rs:78-195 | exactly keycodes 42, 54, 29, 97, 56, 100, 58 and 69 give a modifier change; each sets exactly one flag and types nothing |
| KeyLaws.EqualsKeyAsWritten | egui-fb-backend/src/keys.rs:253 | keycode 13 is `PlusEquals` and types "-" when shifted and "+" otherwise, whatever caps lock says |
| FbInput.ButtonTableInverse | egui-fb-backend/src/lib.rs:148-155 | the table is the inverse of the button codes: exactly 272-276 give a button, each a different one |
| FbInput.UpdateChangesAtMostOneField | egui-fb-backend/src/lib.rs:97-118 | one modifier change alters at most one field |
| FbInput.HeldModifierFollowsKey | egui-fb-backend/src/lib.rs:97-109 | a shift, ctrl or alt change sets exactly its own field to whether the key is down |
| FbInput.LockKeyToggles | egui-fb-backend/src/lib.rs:112-118 | a lock key toggles its flag on press and changes nothing on release |
| FbInput.LockPressedTwice | egui-fb-backend/src/lib.rs:113-117 | two presses of a lock key restore the state |
| FbInput.HeldPressReleaseRestores | egui-fb-backend/src/lib.rs:97-109 | pressing and releasing a held modifier restores the state it started from |
| FbInput.KeyEventShape | egui-fb-backend/src/lib.rs:82-91 | at most two events; a key event is unrepeated, carries the modifiers from before the event and is the table's key; modifier keys push no events |
| FbInput.TextOnPressOnly | egui-fb-backend/src/lib.rs:123-126 | in the corrected event list (see Findings), a non-empty text event is pushed iff the key is pressed and the text table, under the updated modifiers, has text |
| FbInput.ReleaseTypesAgainAsWritten | egui-fb-backend/src/lib.rs:123-126 | as written, pressing and releasing A types "a" twice |
| FbInput.PressReleaseTypesOnce | egui-fb-backend/src/lib.rs:73-127 | pressing and releasing a non-modifier key types its text once, or nothing |
| FbInput.InputState.constructor | egui-fb-backend/src/lib.rs:50 | default modifiers and no events |
| FbInput.InputState.NewFrame | egui-fb-backend/src/lib.rs:66 | the frame's events are cleared and the modifiers carry over |
| FbInput.InputState.HandleKeyAsWritten | egui-fb-backend/src/lib.rs:74-127 | the modifiers become their updated value and the key's events as written, text on press and release, are appended |
| FbInput.InputState.HandleKey | egui-fb-backend/src/lib.rs:74-127 | corrected (see Findings): as `HandleKeyAsWritten`, but the text is appended on press only |
| FbInput.InputState.ApplyChange | egui-fb-backend/src/lib.rs:92-119 | the modifiers become the if/else-if chain's result; no event is pushed |
| FbInput.InputState.HandleButton | egui-fb-backend/src/lib.rs:147-166 | a button event with the current modifiers for the five known codes, nothing otherwise; modifiers unchanged |

## Left out

- The cryptographic primitives are stand-ins. XChaCha20-Poly1305, Argon2id and SHA-256 are foreign library code. Confidentiality, unforgeability, collision resistance and nonce uniqueness cannot be stated over stand-ins.
- The argon2 crate's constants are assumed from version 0.5 of the crate:
  - default costs m = 19456, t = 2, p = 1;
  - `MIN_M_COST` = 8 and `RECOMMENDED_SALT_LEN` = 16;
  - a salt of at least 8 bytes.
  - The crate is not part of this model.
- The OS random number generator is left out. Every random draw is a parameter, including the slot `choose` picks.
- Other panics become preconditions saying when they do not fire:
  - an Argon2 error;
  - a wrapped KEK that authenticates to the wrong length;
  - the token not answering during enrolment.
- The helper process is assumed always to launch. `ProcessOutput` has no spawn-failure case, so the panic when `ykchalresp` cannot be started is not modelled.
- Subprocesses are parameters:
  - `ykchalresp` is a function from challenge to process outcome;
  - the `ykinfo` probe is the poller's observation.
  - `cryptsetup`, `modprobe`, `efibootmgr`, `bootctl` and the reboot and sync system calls are left out. They only run programs.
- Threads, the callback sink, the mutex and the 100 ms sleep are left out. Each posted callback is one atomic step.
- The poller's lock reads are modelled as a sequence of observed states.
- Rendering is left out: the cursive dialogs' contents, themes, the spinner and the exit dialogs' texts.
- The enrolment command-line program in `disk-crypto` is left out. Its only logic is the slot count, which `UnlockYubikey.NewWithSlots` covers.
- serde's JSON layer is not modelled. The envelope's serialised form is a record of Base64 strings (`Params.Store`/`Params.Load`).
- Reading EFI variables and listing boot entries are inputs:
  - the boot-entry iterator is a sequence of read results;
  - `BootOrder` is an optional byte string;
  - `OsIndicationsSupported` is an optional 8-byte buffer.
- `Exits.KeyfileOnDisk.Write` assumes each `write` writes the whole 512-byte chunk. A short write would make a pass issue more writes; that is not modelled.
- In `egui-fb-backend/src/lib.rs` only three parts are modelled: the keyboard branch, the button table and the per-frame event list. The rest is left out:
  - libinput and framebuffer setup;
  - pointer motion and scrolling, which use floating point;
  - the pointer position a button event carries;
  - painting.
- Neither keyboard match has a wildcard arm, so the Rust does not cover every keycode. Here, unlisted keycodes give `None`, like the arms that return `None`.
- DiskEncryption.HexDecode: assumes the hex parser accepts upper- and lower-case digits. The `hex_string` crate is not part of this model.
- UnlockPassword.Decrypt: states only the `Ok` direction. The "fails exactly when the unwrap fails" half is stated by `UnlockPassword.DecryptInput`, which it calls.

## Findings

| source | as written | input that shows it | evidently intended | confidence | as-written member | corrected member |
|---|---|---|---|---|---|---|
| disk-crypto/src/unlock_password.rs:29 | The last byte of the "unsolvable" password is 0, which is valid UTF-8. The doc comment's promise that no `String` can match fails. | 31 random bytes that are all ASCII (each below 0x80), followed by 0: the string with those 32 code points unlocks the KEK | a last byte that never occurs in UTF-8, such as 0xFF | not executed | UnlockPassword.UnsolveableAcceptsSomeString | UnlockPassword.NewUnsolveableFixed |
| boot-menu/src/password_input.rs:25-32 | The `LogInOkay` check follows a `continue` for every state but `WaitingForLogin`, so the poller never exits. After login it keeps waking every 100 ms and taking the lock, but no longer probes the token. | observed states `[WaitingForLogin, ValidatingLogin, LogInOkay, LogInOkay]`, one callback apart: no break | break at the first read that sees `LogInOkay` | not executed | PasswordInput.PollerAsWritten | PasswordInput.PollerFixed |
| egui-fb-backend/src/lib.rs:123-126 | The text of a key is pushed on release as well as on press, so every key types its text twice (`HandleKeyAsWritten` keeps this). | press and release of keycode 30 (A) with no modifiers: texts `["a", "a"]` | text only on press, as `HandleKey` does | not executed | FbInput.ReleaseTypesAgainAsWritten | FbInput.PressReleaseTypesOnce |
