/** The two keyed hashes the core calls through WebCrypto. Their internals
    (HMAC, RFC 2104, over SHA-512 and SHA-256, FIPS 180-4) are not modelled:
    every function of these types stands for one, and only the length of the
    MAC is known. */
module Crypto {
  import opened Bytes

  type Sha512Mac = s: seq<Byte> | |s| == 64 witness seq(64, _ => 0)
  type Sha256Mac = s: seq<Byte> | |s| == 32 witness seq(32, _ => 0)

  /** (key bytes, message bytes) to MAC. */
  type HmacSha512 = (seq<Byte>, seq<Byte>) -> Sha512Mac
  type HmacSha256 = (seq<Byte>, seq<Byte>) -> Sha256Mac
}
