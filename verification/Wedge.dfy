/**
 Windows are not negotiated.  When may the sender wait for an ACK that the receiver will not write?
 */
module Wedge {
  import opened Common
  import opened Channel
  import opened ChannelSafety

  /** The sender's cached ACK does not admit its chunk; the receiver has consumed every chunk and owes no ACK. */
  ghost predicate Stalled(cfg: Config, c: Chan) {
    && c.snd.pc.Waiting?
    && !Admits(c.snd.seqNo, c.snd.acked, cfg.sendWindow)
    && c.rcv.seqNo == c.snd.seqNo
    && (c.rcv.pc.Getting? || c.rcv.pc.Heading?)
  }

  /** And a fresh ACK would not help. */
  ghost predicate Wedged(cfg: Config, c: Chan) {
    Stalled(cfg, c) && !Admits(c.snd.seqNo, StoredAck(c.mail), cfg.sendWindow)
  }

  /** The receiver's window is so much larger that it acknowledges too rarely for this sender. */
  predicate Mismatched(cfg: Config) {
    0 < cfg.sendWindow && 2 * cfg.sendWindow + 1 < cfg.recvWindow
  }

  /** That is, its ACK interval exceeds the send window. */
  lemma MismatchedIff(cfg: Config)
    ensures Mismatched(cfg) <==> 0 < cfg.sendWindow < AckInterval(cfg.recvWindow)
  {
  }

  /** The byte limits leave room for one chunk more than the send window. */
  ghost predicate Room(cfg: Config) {
    && cfg.chunkSize > 0
    && forall n: nat :: n <= cfg.sendWindow ==> !Exceeds(n, 1, cfg.sendMax) && !Exceeds(n, 1, cfg.recvMax)
  }

  /** With matching windows a stalled channel is wedged if and only if the 64-bit sum of ACK and window wraps. */
  lemma WedgedIffSumWraps(cfg: Config, strong: bool, c: Chan)
    requires Reachable(cfg, strong, c) && !Mismatched(cfg) && Stalled(cfg, c)
    ensures Wedged(cfg, c) <==> StoredAck(c.mail) + cfg.sendWindow >= U64
  {
    ReachableInv(cfg, strong, c);
    WrappedSum(StoredAck(c.mail), cfg.sendWindow);
  }

  lemma NeverWedged(cfg: Config, strong: bool, c: Chan)
    requires Reachable(cfg, strong, c) && !Mismatched(cfg)
    requires StoredAck(c.mail) + cfg.sendWindow < U64
    ensures !Wedged(cfg, c)
  {
    if Stalled(cfg, c) { WedgedIffSumWraps(cfg, strong, c); }
  }

  /** Equal windows, and a sender window of at least half the receiver's, never wedge. */
  lemma HalfWindowsMatch(cfg: Config, strong: bool, c: Chan)
    requires Reachable(cfg, strong, c) && 2 * cfg.sendWindow >= cfg.recvWindow
    requires StoredAck(c.mail) + cfg.sendWindow < U64
    ensures !Wedged(cfg, c)
  {
    NeverWedged(cfg, strong, c);
  }

  ghost predicate Starved(cfg: Config, c: Chan) {
    && Inv(cfg, c)
    && c.mail.acks == []
    && c.snd.acked == 0
    && c.snd.seqNo <= cfg.sendWindow
  }

  lemma StarvedMove(cfg: Config, strong: bool, c: Chan, m: Move)
    requires Mismatched(cfg) && c.mail.acks == [] && c.snd.acked == 0 && c.snd.seqNo <= cfg.sendWindow
    requires SenderWindow(cfg, c.snd) && RecvAck(AckInterval(cfg.recvWindow), [], c.rcv)
    requires c.rcv.seqNo <= c.snd.seqNo && Step(cfg, strong, c, m).Some?
    ensures var d := Step(cfg, strong, c, m).value;
            d.mail.acks == [] && d.snd.acked == 0 && d.snd.seqNo <= cfg.sendWindow
  {
    assert !m.PutAck?;
    if m.PutChunk? { assert Admits(c.snd.seqNo, 0, cfg.sendWindow); }
  }

  lemma StarvedStep(cfg: Config, strong: bool, c: Chan, m: Move)
    requires Mismatched(cfg) && Starved(cfg, c) && Step(cfg, strong, c, m).Some?
    ensures Starved(cfg, Step(cfg, strong, c, m).value)
  {
    assert Inv(cfg, Step(cfg, strong, c, m).value) by { InvStep(cfg, strong, c, m); }
    StarvedMove(cfg, strong, c, m);
  }

  lemma {:induction false} StarvedRun(cfg: Config, strong: bool, c: Chan, moves: seq<Move>)
    requires Mismatched(cfg) && Starved(cfg, c) && Run(cfg, strong, c, moves).Some?
    ensures Starved(cfg, Run(cfg, strong, c, moves).value)
  {
    if moves != [] {
      var front := moves[..|moves| - 1];
      StarvedRun(cfg, strong, c, front);
      StarvedStep(cfg, strong, Run(cfg, strong, c, front).value, moves[|moves| - 1]);
    }
  }

  lemma ReachableStarved(cfg: Config, strong: bool, c: Chan)
    requires Mismatched(cfg) && Reachable(cfg, strong, c)
    ensures Starved(cfg, c)
  {
    var moves :| Run(cfg, strong, NEW_CHAN, moves) == Some(c);
    InvNew(cfg);
    StarvedRun(cfg, strong, NEW_CHAN, moves);
  }

  /** With mismatched windows no run ever stores an ACK or sends more than one window. */
  lemma MismatchStarves(cfg: Config, strong: bool, c: Chan)
    requires Mismatched(cfg) && Reachable(cfg, strong, c)
    ensures c.mail.acks == [] && |c.snd.chunks| <= cfg.sendWindow
    ensures c.snd.pc.Waiting? && c.snd.seqNo == cfg.sendWindow ==> Step(cfg, strong, c, Admit) == None
  {
    ReachableStarved(cfg, strong, c);
    assert !Admits(cfg.sendWindow, 0, cfg.sendWindow);
  }

  /** Once wedged, a channel leaves that state only by one side giving up. */
  lemma WedgeLasts(cfg: Config, strong: bool, c: Chan, m: Move)
    requires Mismatched(cfg) && Reachable(cfg, strong, c) && Wedged(cfg, c) && Step(cfg, strong, c, m).Some?
    ensures var d := Step(cfg, strong, c, m).value;
            (Wedged(cfg, d) && d.mail == c.mail) || d.snd.pc.Finished? || d.rcv.pc == Stopped(Failed)
  {
    ReachableInv(cfg, strong, c);
    MismatchStarves(cfg, strong, c);
  }

  // ---------------------------------------------------------------- reaching the wedge

  ghost predicate IdleAfter(cfg: Config, c: Chan, n: nat) {
    && Reachable(cfg, true, c)
    && c.snd.pc == Reading && c.snd.seqNo == n && c.snd.sent == n && c.snd.acked == 0
    && c.rcv.pc == Getting && c.rcv.seqNo == n && c.rcv.received == n && c.rcv.lastAck == 0 && !c.rcv.sawClose
    && c.mail.acks == []
  }

  lemma OneChunk(cfg: Config, c: Chan, n: nat) returns (d: Chan)
    requires Mismatched(cfg) && Room(cfg) && n < cfg.sendWindow && IdleAfter(cfg, c, n)
    ensures IdleAfter(cfg, d, n + 1)
  {
    assert !Exceeds(n, 1, cfg.sendMax) && !Exceeds(n, 1, cfg.recvMax);
    d := Go(cfg, c, Read([0], More));
    d := Go(cfg, d, Admit);
    d := Go(cfg, d, PutChunk);
    d := Go(cfg, d, Hit([0]));
    d := Go(cfg, d, Write);
  }

  lemma Go(cfg: Config, c: Chan, m: Move) returns (d: Chan)
    requires Reachable(cfg, true, c) && Step(cfg, true, c, m).Some?
    ensures Step(cfg, true, c, m) == Some(d) && Reachable(cfg, true, d)
  {
    d := Step(cfg, true, c, m).value;
    ReachesStep(cfg, true, NEW_CHAN, c, m, d);
  }

  lemma {:induction false} ManyChunks(cfg: Config, n: nat) returns (c: Chan)
    requires Mismatched(cfg) && Room(cfg) && n <= cfg.sendWindow
    ensures IdleAfter(cfg, c, n)
  {
    if n == 0 {
      ReachesSelf(cfg, true, NEW_CHAN);
      c := NEW_CHAN;
    } else {
      c := ManyChunks(cfg, n - 1);
      c := OneChunk(cfg, c, n - 1);
    }
  }

  lemma MismatchWedges(cfg: Config) returns (d: Chan)
    requires Mismatched(cfg) && Room(cfg)
    ensures Reachable(cfg, true, d) && Wedged(cfg, d) && StoredAck(d.mail) == 0
  {
    var c := ManyChunks(cfg, cfg.sendWindow);
    d := Go(cfg, c, Read([0], More));
  }

  /** The exact condition: a wedge is reachable if and only if the ACK interval exceeds the send window. */
  lemma WedgeIffMismatched(cfg: Config)
    requires Room(cfg)
    ensures (exists c: Chan :: Reachable(cfg, true, c) && Wedged(cfg, c) && StoredAck(c.mail) + cfg.sendWindow < U64)
            <==> Mismatched(cfg)
  {
    if Mismatched(cfg) {
      var d := MismatchWedges(cfg);
    }
    forall c: Chan | Reachable(cfg, true, c) && Wedged(cfg, c) && StoredAck(c.mail) + cfg.sendWindow < U64
      ensures Mismatched(cfg)
    {
      if !Mismatched(cfg) { NeverWedged(cfg, true, c); }
    }
  }
}
