/**
 Key derivation: the Go and the Kotlin expansion loops against HKDF (RFC 5869, sections 2.2 and 2.3)
 over an abstract keyed hash with 32-byte results.
 */
module Hkdf {
  import opened Common

  const HASH_LEN := 32

  type Hash = (bytes, bytes) -> bytes

  ghost predicate Wide(hmac: Hash) {
    forall key: bytes, data: bytes :: |hmac(key, data)| == HASH_LEN
  }

  // ---------------------------------------------------------------- RFC 5869

  function Extract(hmac: Hash, salt: bytes, secret: bytes): bytes { hmac(salt, secret) }

  /** T(i) of section 2.3; the counter is a single octet. */
  function T(hmac: Hash, prk: bytes, info: bytes, i: nat): bytes
    requires i <= 255
  {
    if i == 0 then [] else hmac(prk, T(hmac, prk, info, i - 1) + info + [i])
  }

  /** T(1) | T(2) | ... | T(n). */
  function Concatenated(hmac: Hash, prk: bytes, info: bytes, n: nat): bytes
    requires n <= 255
  {
    if n == 0 then [] else Concatenated(hmac, prk, info, n - 1) + T(hmac, prk, info, n)
  }

  function BlocksFor(length: nat): nat { (length + HASH_LEN - 1) / HASH_LEN }

  lemma {:induction false} ConcatenatedLength(hmac: Hash, prk: bytes, info: bytes, n: nat)
    requires Wide(hmac) && n <= 255
    ensures |Concatenated(hmac, prk, info, n)| == HASH_LEN * n
  {
    if n > 0 { ConcatenatedLength(hmac, prk, info, n - 1); }
  }

  /** The output keying material is the first `length` octets. */
  ghost predicate IsOkm(hmac: Hash, secret: bytes, salt: bytes, info: bytes, length: nat, okm: bytes)
    requires length <= 255 * HASH_LEN
  {
    |okm| == length && okm <= Concatenated(hmac, Extract(hmac, salt, secret), info, BlocksFor(length))
  }

  // ---------------------------------------------------------------- the two loops

  /** Whole blocks into a buffer, then the first `n` bytes of it; the counter is a byte that may wrap. */
  method GoHkdf(hmac: Hash, secret: bytes, salt: bytes, info: bytes, n: nat) returns (okm: bytes)
    requires Wide(hmac)
    ensures n <= 255 * HASH_LEN ==> IsOkm(hmac, secret, salt, info, n, okm)
    ensures |okm| == n
  {
    var prk := hmac(salt, secret);
    var out: bytes, prev: bytes := [], [];
    var counter: byte := 1;
    ghost var blocks := 0;
    while |out| < n
      invariant |out| == HASH_LEN * blocks && HASH_LEN * blocks < n + HASH_LEN
      invariant n <= 255 * HASH_LEN && blocks <= 254 ==> counter == blocks + 1
      invariant n <= 255 * HASH_LEN ==> blocks <= 255 && out == Concatenated(hmac, prk, info, blocks)
      invariant n <= 255 * HASH_LEN ==> prev == T(hmac, prk, info, blocks)
      decreases n + HASH_LEN - |out|
    {
      prev := hmac(prk, prev + info + [counter]);
      out := out + prev;
      counter := (counter as int + 1) % 256;
      blocks := blocks + 1;
    }
    assert n <= 255 * HASH_LEN ==> blocks == BlocksFor(n);
    return out[..n];
  }

  /** Byte by byte into a list that stops growing at `n`; the counter is an Int of which the low byte is hashed. */
  method KotlinHkdf(hmac: Hash, secret: bytes, salt: bytes, info: bytes, n: nat) returns (okm: bytes)
    requires Wide(hmac)
    ensures n <= 255 * HASH_LEN ==> IsOkm(hmac, secret, salt, info, n, okm)
    ensures |okm| == n
  {
    var prk := hmac(salt, secret);
    var out: bytes, prev: bytes := [], [];
    var counter: nat := 1;
    while |out| < n
      invariant counter > 0 && |out| == Min(HASH_LEN * (counter - 1), n) && HASH_LEN * (counter - 1) < n + HASH_LEN
      invariant n <= 255 * HASH_LEN ==> counter <= 256 && prev == T(hmac, prk, info, counter - 1)
      invariant n <= 255 * HASH_LEN ==> out <= Concatenated(hmac, prk, info, counter - 1)
      decreases n - |out|
    {
      prev := hmac(prk, prev + info + [counter % 256]);
      ghost var before := out;
      if n <= 255 * HASH_LEN { ConcatenatedLength(hmac, prk, info, counter - 1); }
      for i := 0 to |prev|
        invariant |out| == Min(|before| + i, n)
        invariant out <= before + prev
      {
        if |out| < n { out := out + [prev[i]]; }
      }
      counter := counter + 1;
    }
    assert n <= 255 * HASH_LEN ==> counter - 1 == BlocksFor(n);
    return out;
  }

  /** The two clients and the server derive the same keys. */
  lemma OkmUnique(hmac: Hash, secret: bytes, salt: bytes, info: bytes, n: nat, a: bytes, b: bytes)
    requires n <= 255 * HASH_LEN
    requires IsOkm(hmac, secret, salt, info, n, a) && IsOkm(hmac, secret, salt, info, n, b)
    ensures a == b
  {
    var all := Concatenated(hmac, Extract(hmac, salt, secret), info, BlocksFor(n));
    assert a == all[..n] && b == all[..n];
  }
}
