/** Machine-level value types shared by every component: bytes, unsigned
    32-bit integers, fixed-size byte arrays, and the Option/Result wrappers
    that stand for Rust's `Option<T>` and `Result<T, ()>`. */
module Bytes {

  type byte = x: int | 0 <= x < 256
  type u32 = x: int | 0 <= x < 0x1_0000_0000

  /** A `[u8; 32]`: keys, key-encrypting keys, hash outputs. */
  type Bytes32 = s: seq<byte> | |s| == 32 witness seq(32, i => 0)
  /** A `[u8; 24]`: the XChaCha20 extended nonce. */
  type Bytes24 = s: seq<byte> | |s| == 24 witness seq(24, i => 0)
  /** A `[u8; 20]`: an HMAC-SHA1 challenge response. */
  type Bytes20 = s: seq<byte> | |s| == 20 witness seq(20, i => 0)

  datatype Option<+T> = None | Some(value: T)

  /** Every failure in the source is the unit error `()`, so `Err` carries nothing. */
  datatype Result<+T> = Ok(value: T) | Err
}
