/** Matched windows never block for good: from every state the sender's next chunk can still go out. */
module Progress {
  import opened Common
  import opened Channel
  import opened ChannelSafety
  import opened Wedge

  /** The sender waits with a chunk in hand and the receiver is still running. */
  ghost predicate BothRunning(cfg: Config, c: Chan) {
    && Reachable(cfg, true, c)
    && c.snd.pc.Waiting?
    && !c.rcv.pc.Stopped?
  }

  /** The receiver's byte limit, if it has one, leaves room for all that was PUT. */
  ghost predicate Fits(cfg: Config, c: Chan) {
    cfg.recvMax == 0 || |Flatten(c.snd.chunks)| <= cfg.recvMax <= I64_MAX
  }

  predicate CaughtUp(c: Chan) {
    c.rcv.pc.Getting? && c.rcv.seqNo == c.snd.seqNo
  }

  function Behind(c: Chan): int {
    4 * (c.snd.seqNo - c.rcv.seqNo) + if c.rcv.pc.Writing? then 1 else if c.rcv.pc.Getting? then 2 else 3
  }

  /** The receiver's next move when it still has something to do. */
  function NextMove(c: Chan): Move {
    match c.rcv.pc
    case Getting => Hit(if c.rcv.seqNo in c.mail.data then c.mail.data[c.rcv.seqNo] else [])
    case Writing(_) => Write
    case Acking => PutAck
    case _ => Head(false)
  }

  lemma RunningFacts(cfg: Config, c: Chan)
    requires BothRunning(cfg, c)
    ensures c.rcv.seqNo <= c.snd.seqNo && !c.mail.closed && !c.rcv.sawClose
    ensures c.rcv.pc.Writing? || (c.rcv.pc.Getting? && c.rcv.seqNo < c.snd.seqNo) ==>
              c.rcv.seqNo < c.snd.seqNo && c.rcv.seqNo in c.mail.data
    ensures c.rcv.pc.Getting? || c.rcv.pc.Writing? || c.rcv.pc.Acking? || c.rcv.pc.Heading?
  {
    ReachableInv(cfg, true, c);
  }

  /** The next chunk passes the receiver's limit test. */
  lemma NextFits(cfg: Config, c: Chan)
    requires BothRunning(cfg, c) && Fits(cfg, c) && c.rcv.seqNo < c.snd.seqNo
    ensures c.rcv.seqNo < |c.snd.chunks| && !Exceeds(c.rcv.received, |c.snd.chunks[c.rcv.seqNo]|, cfg.recvMax)
    ensures c.rcv.seqNo in c.mail.data && c.mail.data[c.rcv.seqNo] == c.snd.chunks[c.rcv.seqNo]
  {
    var chunks, n := c.snd.chunks, c.rcv.seqNo;
    assert n < |chunks| && c.rcv.received == |Flatten(chunks[..n])| && c.mail.data[n] == chunks[n] by {
      ReachableInv(cfg, true, c);
    }
    FlattenTake(chunks, n);
    FlattenPrefix(chunks, n + 1);
  }

  lemma OneMove(cfg: Config, c: Chan) returns (d: Chan)
    requires BothRunning(cfg, c) && Fits(cfg, c) && !CaughtUp(c)
    ensures Step(cfg, true, c, NextMove(c)) == Some(d)
    ensures BothRunning(cfg, d) && d.snd == c.snd && 0 <= Behind(d) < Behind(c)
  {
    RunningFacts(cfg, c);
    if c.rcv.pc.Getting? { NextFits(cfg, c); }
    var r := RecvStep(cfg, c.rcv, NextMove(c)).value;
    d := Chan(Deliver(c.mail, EffectOf(c.snd, c.rcv, NextMove(c))), c.snd, r, c.missedAt);
    assert Step(cfg, true, c, NextMove(c)) == Some(d);
    ReachesStep(cfg, true, NEW_CHAN, c, NextMove(c), d);
  }

  lemma {:induction false} CatchUp(cfg: Config, c: Chan) returns (moves: seq<Move>, d: Chan)
    requires BothRunning(cfg, c) && Fits(cfg, c)
    ensures Run(cfg, true, c, moves) == Some(d) && BothRunning(cfg, d) && CaughtUp(d) && d.snd == c.snd
    decreases Behind(c)
  {
    RunningFacts(cfg, c);
    if CaughtUp(c) {
      moves, d := [], c;
    } else {
      var next := OneMove(cfg, c);
      var rest;
      rest, d := CatchUp(cfg, next);
      moves := [NextMove(c)] + rest;
      RunFirst(cfg, c, NextMove(c), next, rest);
    }
  }

  ghost predicate CatchesUp(cfg: Config, c: Chan, moves: seq<Move>, d: Chan) {
    Run(cfg, true, c, moves) == Some(d) && d.snd == c.snd && CaughtUp(d)
  }

  /** The receiver can consume all that was PUT if and only if its byte limit leaves room for it. */
  lemma CatchesUpIff(cfg: Config, c: Chan)
    requires BothRunning(cfg, c) && cfg.recvMax + cfg.chunkSize <= I64_MAX
    ensures (exists moves: seq<Move>, d: Chan :: CatchesUp(cfg, c, moves, d)) <==> Fits(cfg, c)
  {
    if Fits(cfg, c) {
      var moves, d := CatchUp(cfg, c);
      assert CatchesUp(cfg, c, moves, d);
    }
    forall moves: seq<Move>, d: Chan | CatchesUp(cfg, c, moves, d) ensures Fits(cfg, c) {
      ReachableInv(cfg, true, c);
      InvRun(cfg, true, c, moves);
      assert d.snd.chunks[..d.rcv.seqNo] == c.snd.chunks;
    }
  }

  /** A move followed by a run is a run. */
  lemma {:induction false} RunFirst(cfg: Config, c: Chan, m: Move, d: Chan, rest: seq<Move>)
    requires Step(cfg, true, c, m) == Some(d)
    ensures Run(cfg, true, c, [m] + rest) == Run(cfg, true, d, rest)
  {
    if rest == [] {
      assert [m][..0] == [];
      assert [m] + rest == [m];
    } else {
      var n := |rest| - 1;
      RunFirst(cfg, c, m, d, rest[..n]);
      assert ([m] + rest)[..n + 1] == [m] + rest[..n];
    }
  }

  lemma RunLast(cfg: Config, c: Chan, moves: seq<Move>, d: Chan, m: Move)
    requires Run(cfg, true, c, moves) == Some(d)
    ensures Run(cfg, true, c, moves + [m]) == Step(cfg, true, d, m)
  {
    assert (moves + [m])[..|moves|] == moves;
  }

  /** With everything consumed and acknowledged, a fresh ACK opens the window. */
  lemma OpenWindow(cfg: Config, c: Chan, moves: seq<Move>, d: Chan) returns (more: seq<Move>, e: Chan)
    requires Run(cfg, true, c, moves) == Some(d) && BothRunning(cfg, d) && CaughtUp(d)
    requires !Mismatched(cfg) && d.snd.seqNo + cfg.sendWindow < U64
    ensures Run(cfg, true, c, more) == Some(e) && e.snd.pc.Waiting? && e.snd.pc.chunk == d.snd.pc.chunk
    ensures e.snd.chunks == d.snd.chunks
    ensures Admits(e.snd.seqNo, e.snd.acked, cfg.sendWindow)
  {
    SequenceOrder(cfg, true, d);
    NeverWedged(cfg, true, d);
    if Admits(d.snd.seqNo, d.snd.acked, cfg.sendWindow) {
      more, e := moves, d;
    } else {
      var m := FetchAck(StoredAck(d.mail));
      e := Step(cfg, true, d, m).value;
      RunLast(cfg, c, moves, d, m);
      more := moves + [m];
    }
  }

  /** The chunk in hand can always be PUT. */
  lemma CanAlwaysSend(cfg: Config, c: Chan) returns (moves: seq<Move>, d: Chan)
    requires BothRunning(cfg, c) && Fits(cfg, c) && !Mismatched(cfg) && c.snd.seqNo + cfg.sendWindow < U64
    ensures Run(cfg, true, c, moves) == Some(d) && d.snd.chunks == c.snd.chunks + [c.snd.pc.chunk]
  {
    var path, caught := CatchUp(cfg, c);
    var opening, open := OpenWindow(cfg, c, path, caught);
    var ready := Step(cfg, true, open, Admit).value;
    RunLast(cfg, c, opening, open, Admit);
    d := Step(cfg, true, ready, PutChunk).value;
    RunLast(cfg, c, opening + [Admit], ready, PutChunk);
    moves := opening + [Admit] + [PutChunk];
  }

  /** And with mismatched windows a sender at the end of its window never can. */
  lemma MismatchBlocksForGood(cfg: Config, c: Chan, moves: seq<Move>, d: Chan)
    requires Mismatched(cfg) && Reachable(cfg, true, c) && |c.snd.chunks| == cfg.sendWindow
    requires Run(cfg, true, c, moves) == Some(d)
    ensures |d.snd.chunks| <= |c.snd.chunks|
  {
    var before :| Run(cfg, true, NEW_CHAN, before) == Some(c);
    InvNew(cfg);
    StarvedRun(cfg, true, NEW_CHAN, before);
    StarvedRun(cfg, true, c, moves);
  }

  /** Not just some run: every running channel with a full window and a chunk in hand catches up into the wedge. */
  lemma FullWindowWedges(cfg: Config, c: Chan) returns (moves: seq<Move>, d: Chan)
    requires Mismatched(cfg) && BothRunning(cfg, c) && Fits(cfg, c) && c.snd.seqNo == cfg.sendWindow
    ensures Run(cfg, true, c, moves) == Some(d) && Wedged(cfg, d) && d.snd == c.snd && d.mail.acks == []
  {
    moves, d := CatchUp(cfg, c);
    MismatchStarves(cfg, true, d);
    SequenceOrder(cfg, true, d);
  }
}
