/** Configuration defaults and the negotiation of chunk sizes. */
module Settings {
  import opened Common
  import opened Channel
  import opened ChannelSafety

  const MIN_CHUNK_SIZE := 1024
  const MAX_CHUNK_SIZE := 16 * 1024 * 1024
  const MILLISECOND := 1_000_000

  /** The tunnel settings; durations are in nanoseconds. */
  datatype Tunnel = Tunnel(
    chunkSize: int, flushDelay: int, pollMin: int, pollMax: int, activePoll: int,
    windowChunks: uint64, closeCheckAfterMisses: int, idleTimeout: int)

  function ClampChunkSize(n: int): int {
    var wanted := if n <= 0 then 64 * 1024 else n;
    if wanted < MIN_CHUNK_SIZE then MIN_CHUNK_SIZE else if wanted > MAX_CHUNK_SIZE then MAX_CHUNK_SIZE else wanted
  }

  predicate ValidChunkSize(n: int) { MIN_CHUNK_SIZE <= n <= MAX_CHUNK_SIZE }

  /** What the tunnel runs with, whatever was configured. */
  function WithDefaults(t: Tunnel): (u: Tunnel)
    ensures ValidChunkSize(u.chunkSize) && (ValidChunkSize(t.chunkSize) ==> u.chunkSize == t.chunkSize)
    ensures 0 < u.pollMin <= u.pollMax && u.flushDelay >= 0 && u.activePoll > 0 && u.idleTimeout > 0
    ensures u.windowChunks > 0 && u.closeCheckAfterMisses > 0
  {
    var pollMin := if t.pollMin <= 0 then 50 * MILLISECOND else t.pollMin;
    var pollMax := if t.pollMax <= 0 then 2000 * MILLISECOND else t.pollMax;
    Tunnel(
      ClampChunkSize(t.chunkSize),
      Max(t.flushDelay, 0),
      pollMin,
      Max(pollMax, pollMin),
      if t.activePoll <= 0 then 500 * MILLISECOND else t.activePoll,
      if t.windowChunks == 0 then 16 else t.windowChunks,
      if t.closeCheckAfterMisses <= 0 then DEFAULT_CLOSE_CHECK else t.closeCheckAfterMisses,
      if t.idleTimeout <= 0 then 120_000 * MILLISECOND else t.idleTimeout)
  }

  /** A setting that makes sense is kept; poll times and sizes out of range go to the nearest that does. */
  lemma ConfiguredKept(t: Tunnel)
    ensures var u := WithDefaults(t);
            && (t.chunkSize > 0 ==> u.chunkSize == Max(MIN_CHUNK_SIZE, Min(t.chunkSize, MAX_CHUNK_SIZE)))
            && (t.flushDelay >= 0 ==> u.flushDelay == t.flushDelay)
            && (t.pollMin > 0 ==> u.pollMin == t.pollMin)
            && (t.pollMax > 0 ==> u.pollMax == Max(t.pollMax, u.pollMin))
            && (t.activePoll > 0 ==> u.activePoll == t.activePoll)
            && (t.windowChunks > 0 ==> u.windowChunks == t.windowChunks)
            && (t.closeCheckAfterMisses > 0 ==> u.closeCheckAfterMisses == t.closeCheckAfterMisses)
            && (t.idleTimeout > 0 ==> u.idleTimeout == t.idleTimeout)
  {
  }

  /** And what is left out takes its default. */
  lemma UnsetDefaults()
    ensures WithDefaults(Tunnel(0, -1, 0, 0, 0, 0, 0, 0)) ==
            Tunnel(65_536, 0, 50_000_000, 2_000_000_000, 500_000_000, 16, 4, 120_000_000_000)
  {
  }

  lemma DefaultsOnce(t: Tunnel)
    ensures WithDefaults(WithDefaults(t)) == WithDefaults(t)
  {
  }

  /** The size a sender may use against its peer's receive limit. */
  function EffectiveSendChunkSize(local: int, peerReceive: int): Option<int> {
    if !ValidChunkSize(local) then None
    else if !ValidChunkSize(peerReceive) then None
    else if local < peerReceive then Some(local)
    else Some(peerReceive)
  }

  /** It is the smaller of both sizes, if both are valid, and nothing otherwise. */
  lemma NegotiatesSmaller(local: int, peerReceive: int, n: int)
    ensures EffectiveSendChunkSize(local, peerReceive) == Some(n) <==>
              ValidChunkSize(local) && ValidChunkSize(peerReceive) && n == Min(local, peerReceive)
  {
  }

  /** Two sides that apply the defaults always agree, in both directions on the same limit, within both settings. */
  lemma NegotiationSucceeds(a: Tunnel, b: Tunnel)
    ensures var x, y := WithDefaults(a).chunkSize, WithDefaults(b).chunkSize;
            && EffectiveSendChunkSize(x, y).Some?
            && EffectiveSendChunkSize(x, y) == EffectiveSendChunkSize(y, x)
            && ValidChunkSize(EffectiveSendChunkSize(x, y).value)
            && EffectiveSendChunkSize(x, y).value <= x && EffectiveSendChunkSize(x, y).value <= y
  {
  }

  /** Every data object of a negotiated channel respects the sender's size and the receiver's advertised limit. */
  lemma ChunksWithinBothLimits(sender: Tunnel, receiver: Tunnel, cfg: Config, strong: bool, c: Chan, n: nat)
    requires var x, y := WithDefaults(sender).chunkSize, WithDefaults(receiver).chunkSize;
             EffectiveSendChunkSize(x, y) == Some(cfg.chunkSize)
    requires Reachable(cfg, strong, c) && n in c.mail.data
    ensures 1 <= |c.mail.data[n]| <= WithDefaults(sender).chunkSize
    ensures |c.mail.data[n]| <= WithDefaults(receiver).chunkSize
  {
    DataObjects(cfg, strong, c);
  }
}
