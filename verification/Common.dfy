/** Shared vocabulary: bytes, optional values and concatenation of chunks. */
module Common {
  type byte = b: int | 0 <= b < 256
  type bytes = seq<byte>

  datatype Option<+T> = None | Some(value: T)

  const U64: nat := 0x1_0000_0000_0000_0000
  const I64_MAX: nat := 0x7FFF_FFFF_FFFF_FFFF

  type uint64 = n: nat | n < U64

  /** The value a signed 64-bit word holds after storing `n` in it. */
  function Wrap64(n: int): int {
    (n + 0x8000_0000_0000_0000) % U64 - 0x8000_0000_0000_0000
  }

  /** It is the one number of the signed range that differs from `n` by a multiple of 2^64. */
  lemma WrapIs(n: int)
    ensures -0x8000_0000_0000_0000 <= Wrap64(n) <= I64_MAX
    ensures (n - Wrap64(n)) % U64 == 0
    ensures -0x8000_0000_0000_0000 <= n <= I64_MAX <==> Wrap64(n) == n
  {
  }

  /** From the client to the server, and back. */
  datatype Direction = C2S | S2C

  function DirName(d: Direction): string { if d == C2S then "c2s" else "s2c" }

  function Min(a: int, b: int): int { if a <= b then a else b }

  function Max(a: int, b: int): int { if a >= b then a else b }

  lemma MapAdd<K, V>(m: map<K, V>, k: K, v: V)
    ensures |m[k := v]| == if k in m then |m| else |m| + 1
  {
    assert m[k := v].Keys == m.Keys + {k};
  }

  lemma MapDrop<K, V>(m: map<K, V>, k: K)
    requires k in m
    ensures |m - {k}| == |m| - 1
  {
    assert (m - {k}).Keys == m.Keys - {k};
  }

  /** The keys whose value is as asked. */
  ghost function KeysWhere<K, V>(m: map<K, V>, p: V -> bool): set<K> {
    set k | k in m && p(m[k])
  }

  lemma KeysWhereAdd<K, V>(m: map<K, V>, k: K, v: V, p: V -> bool)
    requires k !in m || !p(m[k])
    ensures |KeysWhere(m[k := v], p)| == |KeysWhere(m, p)| + if p(v) then 1 else 0
  {
    assert KeysWhere(m[k := v], p) == KeysWhere(m, p) + if p(v) then {k} else {};
  }

  lemma KeysWhereDrop<K, V>(m: map<K, V>, k: K, p: V -> bool)
    requires k in m
    ensures |KeysWhere(m - {k}, p)| == |KeysWhere(m, p)| - if p(m[k]) then 1 else 0
  {
    assert KeysWhere(m - {k}, p) == KeysWhere(m, p) - {k};
  }

  lemma MultipleLess(i: nat, j: nat, e: nat)
    requires i < j
    ensures (i + 1) * e <= j * e
  {
  }

  lemma Quotient(n: nat, q: nat, d: nat, r: nat)
    requires d > 0 && n == q * d + r && r < d
    ensures n / d == q && n % d == r
  {
    if n / d < q { MultipleLess(n / d, q, d); }
    if q < n / d { MultipleLess(q, n / d, d); }
  }

  lemma OneMoreTime(n: nat, d: nat)
    requires d > 0
    ensures (n + d) / d == n / d + 1
  {
    assert (n / d + 1) * d == n / d * d + d;
    Quotient(n + d, n / d + 1, d, n % d);
  }

  /** The chunks glued together in order. */
  function Flatten<T>(chunks: seq<seq<T>>): seq<T> {
    if chunks == [] then []
    else Flatten(chunks[..|chunks| - 1]) + chunks[|chunks| - 1]
  }

  lemma FlattenAppend<T>(chunks: seq<seq<T>>, chunk: seq<T>)
    ensures Flatten(chunks + [chunk]) == Flatten(chunks) + chunk
  {
    assert (chunks + [chunk])[..|chunks|] == chunks;
  }

  lemma FlattenTake<T>(chunks: seq<seq<T>>, n: nat)
    requires n < |chunks|
    ensures Flatten(chunks[..n + 1]) == Flatten(chunks[..n]) + chunks[n]
  {
    assert chunks[..n + 1][..n] == chunks[..n];
  }

  lemma {:induction false} FlattenPrefix<T>(chunks: seq<seq<T>>, n: nat)
    requires n <= |chunks|
    ensures Flatten(chunks[..n]) <= Flatten(chunks)
    decreases |chunks| - n
  {
    if n == |chunks| {
      assert chunks[..n] == chunks;
    } else {
      FlattenTake(chunks, n);
      FlattenPrefix(chunks, n + 1);
    }
  }
}
