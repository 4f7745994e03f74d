/**
 The binary envelope of data objects, as the Go and the Kotlin codecs write and read it, over an
 abstract AEAD.  Go's `int` is 64 bits wide; Kotlin's `Int` is 32 bits wide and signed.
 */
module Envelope {
  import opened Common
  import opened Text

  // ---------------------------------------------------------------- 32-bit big-endian numbers

  const U32: nat := 0x1_0000_0000

  function PutU32(n: nat): (b: bytes)
    ensures |b| == 4
  {
    [n / 0x100_0000 % 256, n / 0x1_0000 % 256, n / 0x100 % 256, n % 256]
  }

  function GetU32(b: bytes): (n: nat)
    requires |b| == 4
    ensures n < U32
  {
    (b[0] as int) * 0x100_0000 + (b[1] as int) * 0x1_0000 + (b[2] as int) * 0x100 + b[3] as int
  }

  lemma Shift(n: nat)
    ensures n / 0x1_0000 == n / 0x100 / 0x100
  {
  }

  lemma Shift3(n: nat)
    ensures n / 0x100_0000 == n / 0x1_0000 / 0x100
  {
  }

  lemma LowWord(n: nat, q: nat, low: nat)
    requires n == U32 * q + low && low < U32
    ensures n % U32 == low
  {
  }

  lemma GetPutU32(n: nat)
    ensures GetU32(PutU32(n)) == n % U32
  {
    Shift(n);
    Shift3(n);
    var a, b, c := n / 0x100_0000, n / 0x1_0000, n / 0x100;
    LowWord(n, a / 256, 0x100_0000 * (a % 256) + 0x1_0000 * (b % 256) + 0x100 * (c % 256) + n % 256);
  }

  lemma PutGetU32(b: bytes)
    requires |b| == 4
    ensures PutU32(GetU32(b)) == b
  {
    var n := GetU32(b);
    var x: int, y: int, z: int := b[0], b[1], b[2];
    assert n / 0x100 == x * 0x1_0000 + y * 0x100 + z;
    assert n / 0x1_0000 == x * 0x100 + y;
    assert n / 0x100_0000 == x;
  }

  /** Which of two words of four bytes comes first, byte by byte. */
  predicate ByteLess(a: bytes, b: bytes)
    requires |a| == |b| == 4
  {
    a[0] < b[0] || (a[0] == b[0] && (a[1] < b[1] || (a[1] == b[1] && (a[2] < b[2] || (a[2] == b[2] && a[3] < b[3])))))
  }

  /** The most significant byte comes first: the order of the bytes is that of the numbers. */
  lemma BigEndian(a: bytes, b: bytes)
    requires |a| == |b| == 4
    ensures ByteLess(a, b) <==> GetU32(a) < GetU32(b)
  {
  }

  /** The value of a 32-bit word read as a signed Int. */
  function ToInt32(n: int): int { (n + 0x8000_0000) % U32 - 0x8000_0000 }

  // ---------------------------------------------------------------- the frame

  const MAGIC: bytes := [83, 53, 68, 49]
  const HEADER_LEN := 12

  /** The text that a data object begins with. */
  lemma MagicIsText()
    ensures |MAGIC| == 4 && forall i :: 0 <= i < 4 ==> MAGIC[i] == "S5D1"[i] as int
  {
  }

  datatype Frame = Frame(nonce: bytes, ciphertext: bytes)

  /** The frame that `SealData` writes: the lengths are truncated to their fields. */
  function Encode(f: Frame): bytes {
    MAGIC + [1, 1, |f.nonce| % 256, 0] + PutU32(|f.ciphertext| % U32) + f.nonce + f.ciphertext
  }

  /** `copy(out[offset:], src)`. */
  method CopyInto(out: array<byte>, offset: nat, src: bytes)
    requires offset + |src| <= out.Length
    modifies out
    ensures out[..offset + |src|] == old(out[..offset]) + src
  {
    forall i | 0 <= i < |src| { out[offset + i] := src[i]; }
  }

  /** `SealData`'s writes into one buffer. */
  method EncodeInto(f: Frame) returns (out: array<byte>)
    ensures fresh(out) && out[..] == Encode(f)
  {
    out := new byte[HEADER_LEN + |f.nonce| + |f.ciphertext|];
    CopyInto(out, 0, MAGIC);
    CopyInto(out, 4, [1, 1, |f.nonce| % 256, 0]);
    CopyInto(out, 8, PutU32(|f.ciphertext| % U32));
    CopyInto(out, HEADER_LEN, f.nonce);
    CopyInto(out, HEADER_LEN + |f.nonce|, f.ciphertext);
    assert out[..] == out[..out.Length];
  }

  /** The Go checks, in their order. */
  function GoDecode(data: bytes): Option<Frame> {
    if |data| < HEADER_LEN then None
    else if data[..4] != MAGIC then None
    else if data[4] != 1 then None
    else if data[5] != 1 then None
    else if data[6] != 12 then None
    else
      var ctLen := GetU32(data[8..12]);
      if ctLen < 16 then None
      else if |data| != HEADER_LEN + 12 + ctLen then None
      else Some(Frame(data[HEADER_LEN..HEADER_LEN + 12], data[HEADER_LEN + 12..]))
  }

  /** The Kotlin checks, on signed bytes and with 32-bit sums. */
  function KotlinDecode(data: bytes): Option<Frame> {
    if |data| < 24 then None
    else if data[0] != MAGIC[0] || data[1] != MAGIC[1] || data[2] != MAGIC[2] || data[3] != MAGIC[3] then None
    else if SignedByte(data[4]) != 1 || SignedByte(data[5]) != 1 then None
    else
      var nonceLen := data[6];
      if nonceLen != 12 then None
      else
        var ctLen := ToInt32(GetU32(data[8..12]));
        if ctLen < 16 || |data| != ToInt32(12 + nonceLen + ctLen) then None
        else Some(Frame(data[12..12 + nonceLen], data[12 + nonceLen..]))
  }

  function SignedByte(b: byte): int { if b < 128 then b else b - 256 }

  /** On every array that fits the JVM the two decoders accept the same inputs, with the same result. */
  lemma DecodersAgree(data: bytes)
    requires |data| < 0x8000_0000
    ensures KotlinDecode(data) == GoDecode(data)
  {
    if |data| >= 24 {
      assert data[..4] == MAGIC <==> forall i :: 0 <= i < 4 ==> data[i] == MAGIC[i];
    }
  }

  /** Well-formed but for its flags byte, which neither decoder reads. */
  ghost predicate WellFormed(data: bytes, f: Frame, flags: byte) {
    && |f.nonce| == 12 && 16 <= |f.ciphertext| < U32
    && data == MAGIC + [1, 1, 12, flags] + PutU32(|f.ciphertext|) + f.nonce + f.ciphertext
  }

  /** The decoder accepts exactly the well-formed frames, whatever their flags byte. */
  lemma DecodesExactly(data: bytes, f: Frame)
    ensures GoDecode(data) == Some(f) <==> exists flags: byte :: WellFormed(data, f, flags)
  {
    if GoDecode(data) == Some(f) {
      PutGetU32(data[8..12]);
      assert data == data[..4] + data[4..8] + data[8..12] + data[12..24] + data[24..];
      assert WellFormed(data, f, data[7]);
    }
    forall flags: byte | WellFormed(data, f, flags) ensures GoDecode(data) == Some(f) {
      WellFormedDecodes(data, f, flags);
    }
  }

  lemma FrameParts(data: bytes, f: Frame, flags: byte)
    requires WellFormed(data, f, flags)
    ensures |data| == 24 + |f.ciphertext| && data[..4] == MAGIC && data[4..8] == [1, 1, 12, flags]
    ensures data[8..12] == PutU32(|f.ciphertext|) && data[12..24] == f.nonce && data[24..] == f.ciphertext
  {
  }

  lemma WellFormedDecodes(data: bytes, f: Frame, flags: byte)
    requires WellFormed(data, f, flags)
    ensures GoDecode(data) == Some(f)
  {
    FrameParts(data, f, flags);
    GetPutU32(|f.ciphertext|);
    var ctLen := GetU32(data[8..12]);
    assert ctLen == |f.ciphertext|;
    assert data[4] == data[4..8][0] && data[5] == data[4..8][1] && data[6] == data[4..8][2];
  }

  /** An encoded frame decodes back if and only if its ciphertext length fits the length field. */
  lemma EncodeDecodes(f: Frame)
    requires |f.nonce| == 12 && |f.ciphertext| >= 16
    ensures GoDecode(Encode(f)) == Some(f) <==> |f.ciphertext| < U32
    ensures |f.ciphertext| >= U32 ==> GoDecode(Encode(f)) == None
  {
    if |f.ciphertext| < U32 {
      WellFormedDecodes(Encode(f), f, 0);
    } else {
      var data := Encode(f);
      GetPutU32(|f.ciphertext| % U32);
      assert data[8..12] == PutU32(|f.ciphertext| % U32);
      assert GetU32(data[8..12]) < |f.ciphertext| && |data| == 24 + |f.ciphertext|;
    }
  }

  // ---------------------------------------------------------------- associated data

  /** What the seal binds a payload to, as text. */
  function AssociatedData(kind: string, sid: string, dir: string, n: nat): string {
    "s3s5/v1|" + (kind + "|" + (sid + "|" + (dir + "|" + Padded(n, 20))))
  }

  /** It begins with the protocol's version and ends with twenty digits. */
  lemma AssociatedDataFrame(kind: string, sid: string, dir: string, n: uint64)
    ensures var text := AssociatedData(kind, sid, dir, n);
            && |text| == 31 + |kind| + |sid| + |dir|
            && text[..8] == "s3s5/v1|" && text[|text| - 20..] == Padded(n, 20) && |Padded(n, 20)| == 20
  {
    assert Pow10(4) == 10_000;
    assert Pow10(8) == 10_000 * Pow10(4);
    assert Pow10(12) == 10_000 * Pow10(8);
    assert Pow10(16) == 10_000 * Pow10(12);
    assert Pow10(20) == 10_000 * Pow10(16);
    PaddedIsFixed(n, 20);
    FixedLength(n, 20);
  }

  predicate NoBar(s: string) { '|' !in s }

  lemma FirstBar(a: string, x: string)
    requires NoBar(a)
    ensures var s := a + "|" + x;
            s[|a|] == '|' && s[..|a|] == a && s[|a| + 1..] == x && forall i :: 0 <= i < |a| ==> s[i] != '|'
  {
    assert forall i :: 0 <= i < |a| ==> (a + "|" + x)[i] == a[i] && a[i] in a;
  }

  lemma SplitBar(a: string, x: string, b: string, y: string)
    requires NoBar(a) && NoBar(b) && a + "|" + x == b + "|" + y
    ensures a == b && x == y
  {
    FirstBar(a, x);
    FirstBar(b, y);
  }

  /** For fields without a bar the associated data determines type, session, direction and sequence number. */
  lemma AssociatedDataInjective(kind: string, sid: string, dir: string, n: nat, kind': string, sid': string,
                                dir': string, n': nat)
    requires NoBar(kind) && NoBar(sid) && NoBar(dir) && NoBar(kind') && NoBar(sid') && NoBar(dir')
    requires AssociatedData(kind, sid, dir, n) == AssociatedData(kind', sid', dir', n')
    ensures kind == kind' && sid == sid' && dir == dir' && n == n'
  {
    var d, d' := dir + "|" + Padded(n, 20), dir' + "|" + Padded(n', 20);
    var k, k' := kind + "|" + (sid + "|" + d), kind' + "|" + (sid' + "|" + d');
    assert ("s3s5/v1|" + k)[8..] == k && ("s3s5/v1|" + k')[8..] == k';
    SplitBar(kind, sid + "|" + d, kind', sid' + "|" + d');
    SplitBar(sid, d, sid', d');
    SplitBar(dir, Padded(n, 20), dir', Padded(n', 20));
    PaddedValue(n, 20);
    PaddedValue(n', 20);
  }

  /** With a bar in a field it does not. */
  lemma BarsConfuse()
    ensures AssociatedData("data", "a|b", "c", 0) == AssociatedData("data", "a", "b|c", 0)
  {
    var p := Padded(0, 20);
    assert "a|b" + "|" + ("c" + "|" + p) == "a" + "|" + ("b|c" + "|" + p);
  }

  // ---------------------------------------------------------------- sealing and opening

  /** An authenticated cipher: key, nonce, associated data, text. */
  datatype Aead = Aead(
    seal: (bytes, bytes, string, bytes) -> bytes,
    open: (bytes, bytes, string, bytes) -> Option<bytes>)

  /** AES-256-GCM as the codecs use it: 12-byte nonces, a 16-byte tag, decryption undoes encryption. */
  ghost predicate Correct(c: Aead) {
    forall key: bytes, nonce: bytes, aad: string, plain: bytes :: |nonce| == 12 ==>
      |c.seal(key, nonce, aad, plain)| == |plain| + 16 &&
      c.open(key, nonce, aad, c.seal(key, nonce, aad, plain)) == Some(plain)
  }

  /** One use of the cipher's sealing side. */
  datatype Sealing = Sealing(key: bytes, nonce: bytes, aad: string, plain: bytes)

  function TextOf(c: Aead, s: Sealing): bytes { c.seal(s.key, s.nonce, s.aad, s.plain) }

  /**
   Authentic for the sealings that were made: their ciphertexts open, under their nonce and whatever key and
   associated data, only to what was sealed under that key and data.
   */
  ghost predicate Authentic(c: Aead, made: set<Sealing>) {
    forall s: Sealing, key: bytes, aad: string, plain: bytes ::
      s in made && c.open(key, s.nonce, aad, TextOf(c, s)) == Some(plain) ==> Sealing(key, s.nonce, aad, plain) in made
  }

  /** No nonce is used twice. */
  ghost predicate FreshNonces(made: set<Sealing>) {
    forall s, t :: s in made && t in made && s.nonce == t.nonce ==> s == t
  }

  /** Sixteen octets that tell the sealings made from all others. */
  function Tag(known: bool): bytes { seq(16, i => if known then 1 else 0) }

  ghost function ModelCipher(made: set<Sealing>): Aead {
    Aead(
      (key, nonce, aad, plain) => plain + Tag(Sealing(key, nonce, aad, plain) in made),
      (key, nonce, aad, text) =>
        if |text| < 16 then None
        else
          var plain := text[..|text| - 16];
          if text[|text| - 16..] == Tag(Sealing(key, nonce, aad, plain) in made) then Some(plain) else None)
  }

  /** These laws can be met together, whatever was sealed. */
  lemma CiphersExist(made: set<Sealing>)
    ensures Correct(ModelCipher(made)) && Authentic(ModelCipher(made), made)
  {
    var c := ModelCipher(made);
    forall key: bytes, nonce: bytes, aad: string, plain: bytes
      ensures |c.seal(key, nonce, aad, plain)| == |plain| + 16
      ensures c.open(key, nonce, aad, c.seal(key, nonce, aad, plain)) == Some(plain)
    {
      var tag := Tag(Sealing(key, nonce, aad, plain) in made);
      assert (plain + tag)[..|plain|] == plain && (plain + tag)[|plain|..] == tag;
    }
    forall s: Sealing, key: bytes, aad: string, plain: bytes
      | s in made && c.open(key, s.nonce, aad, TextOf(c, s)) == Some(plain)
      ensures Sealing(key, s.nonce, aad, plain) in made
    {
      assert Tag(true)[0] == 1 && Tag(false)[0] == 0;
      assert TextOf(c, s) == s.plain + Tag(true);
      assert (s.plain + Tag(true))[|s.plain|..] == Tag(true);
    }
  }

  function SealData(c: Aead, derive: (string, string) -> bytes, nonce: bytes, sid: string, dir: string, n: nat,
                    plain: bytes): bytes {
    Encode(Frame(nonce, c.seal(derive(sid, dir), nonce, AssociatedData("data", sid, dir, n), plain)))
  }

  function OpenData(c: Aead, derive: (string, string) -> bytes, sid: string, dir: string, n: nat,
                    data: bytes): Option<bytes> {
    match GoDecode(data)
    case None => None
    case Some(f) => c.open(derive(sid, dir), f.nonce, AssociatedData("data", sid, dir, n), f.ciphertext)
  }

  /** `OpenData` undoes `SealData` if and only if plaintext and tag fit a 32-bit length. */
  lemma OpenUndoesSeal(c: Aead, derive: (string, string) -> bytes, nonce: bytes, sid: string, dir: string, n: nat,
                       plain: bytes)
    requires Correct(c) && |nonce| == 12
    ensures OpenData(c, derive, sid, dir, n, SealData(c, derive, nonce, sid, dir, n, plain)) == Some(plain) <==>
              |plain| + 16 < U32
  {
    var aad := AssociatedData("data", sid, dir, n);
    var key := derive(sid, dir);
    assert |c.seal(key, nonce, aad, plain)| == |plain| + 16;
    EncodeDecodes(Frame(nonce, c.seal(key, nonce, aad, plain)));
  }

  /** What sealing one data object asks of the cipher. */
  function SealingOf(derive: (string, string) -> bytes, nonce: bytes, sid: string, dir: string, n: nat,
                     plain: bytes): Sealing {
    Sealing(derive(sid, dir), nonce, AssociatedData("data", sid, dir, n), plain)
  }

  /**
   Opening a sealed data object for any session, direction and number succeeds if and only if it was sealed
   for exactly those and its length fits, whatever else was sealed under fresh nonces.
   */
  lemma OpensIffSealedFor(c: Aead, made: set<Sealing>, derive: (string, string) -> bytes, nonce: bytes,
                          sid: string, dir: string, n: nat, plain: bytes, sid': string, dir': string, n': nat)
    requires Correct(c) && Authentic(c, made) && FreshNonces(made)
    requires |nonce| == 12 && SealingOf(derive, nonce, sid, dir, n, plain) in made
    requires NoBar(sid) && NoBar(dir) && NoBar(sid') && NoBar(dir')
    ensures OpenData(c, derive, sid', dir', n', SealData(c, derive, nonce, sid, dir, n, plain)).Some?
            <==> (sid', dir', n') == (sid, dir, n) && |plain| + 16 < U32
  {
    var s := SealingOf(derive, nonce, sid, dir, n, plain);
    EncodeDecodes(Frame(nonce, TextOf(c, s)));
    OpenUndoesSeal(c, derive, nonce, sid, dir, n, plain);
    var aad' := AssociatedData("data", sid', dir', n');
    match c.open(derive(sid', dir'), nonce, aad', TextOf(c, s))
    case None =>
    case Some(p) =>
      assert Sealing(derive(sid', dir'), s.nonce, aad', p) == s;
      AssociatedDataInjective("data", sid, dir, n, "data", sid', dir', n');
  }

  /** A data object sealed for one place in the protocol opens at no other. */
  lemma NoRetargeting(c: Aead, made: set<Sealing>, derive: (string, string) -> bytes, nonce: bytes,
                      sid: string, dir: string, n: nat, plain: bytes, sid': string, dir': string, n': nat)
    requires Correct(c) && Authentic(c, made) && FreshNonces(made)
    requires |nonce| == 12 && SealingOf(derive, nonce, sid, dir, n, plain) in made
    requires NoBar(sid) && NoBar(dir) && NoBar(sid') && NoBar(dir')
    requires (sid, dir, n) != (sid', dir', n')
    ensures OpenData(c, derive, sid', dir', n', SealData(c, derive, nonce, sid, dir, n, plain)) == None
  {
    OpensIffSealedFor(c, made, derive, nonce, sid, dir, n, plain, sid', dir', n');
  }
}
