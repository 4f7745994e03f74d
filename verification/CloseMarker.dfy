/**
 The receiver stops at the first close marker it sees and does not ask for data again.  Over a
 strongly consistent store, is everything delivered by then?
 */
module CloseMarker {
  import opened Common
  import opened Channel
  import opened ChannelSafety

  ghost predicate Delivered(c: Chan) {
    c.rcv.written == Flatten(c.snd.chunks)
  }

  /** The last data miss saw all that was ever PUT. */
  predicate MissAfterLastPut(c: Chan) {
    c.missedAt == |c.snd.chunks|
  }

  ghost predicate AtMiss(cfg: Config, c: Chan) {
    && (c.rcv.pc.Heading? ==> c.rcv.seqNo == c.missedAt)
    && (c.rcv.sawClose ==> cfg.drain)
    && (c.rcv.pc == Stopped(PeerClosed) ==> c.mail.closed && c.rcv.seqNo == c.missedAt)
    && (c.rcv.pc == Stopped(PeerClosed) && cfg.drain ==> MissAfterLastPut(c))
  }

  ghost predicate CloseInv(cfg: Config, c: Chan) {
    Inv(cfg, c) && AtMiss(cfg, c)
  }

  lemma AtMissStep(cfg: Config, c: Chan, m: Move)
    requires AtMiss(cfg, c) && MailInv(c.snd, c.mail) && c.rcv.seqNo <= |c.snd.chunks|
    requires c.rcv.sawClose ==> c.mail.closed
    requires Step(cfg, true, c, m).Some?
    ensures AtMiss(cfg, Step(cfg, true, c, m).value)
  {
    if IsSend(m) {
      assert m.PutChunk? ==> !c.mail.closed;
    }
  }

  lemma CloseInvStep(cfg: Config, c: Chan, m: Move)
    requires CloseInv(cfg, c) && Step(cfg, true, c, m).Some?
    ensures CloseInv(cfg, Step(cfg, true, c, m).value)
  {
    AtMissStep(cfg, c, m);
    InvStep(cfg, true, c, m);
  }

  lemma {:induction false} CloseInvRun(cfg: Config, c: Chan, moves: seq<Move>)
    requires CloseInv(cfg, c) && Run(cfg, true, c, moves).Some?
    ensures CloseInv(cfg, Run(cfg, true, c, moves).value)
  {
    if moves != [] {
      var front := moves[..|moves| - 1];
      CloseInvRun(cfg, c, front);
      CloseInvStep(cfg, Run(cfg, true, c, front).value, moves[|moves| - 1]);
    }
  }

  lemma ReachableCloseInv(cfg: Config, c: Chan)
    requires Reachable(cfg, true, c)
    ensures CloseInv(cfg, c)
  {
    var moves :| Run(cfg, true, NEW_CHAN, moves) == Some(c);
    InvNew(cfg);
    CloseInvRun(cfg, NEW_CHAN, moves);
  }

  /** The receiver that stopped at a close marker delivered everything iff no chunk was PUT after its last miss. */
  lemma DeliveredIff(cfg: Config, c: Chan)
    requires Reachable(cfg, true, c) && c.rcv.pc == Stopped(PeerClosed)
    ensures Delivered(c) <==> MissAfterLastPut(c)
    ensures c.snd.pc.Finished? && c.rcv.seqNo == c.missedAt
  {
    ReachableCloseInv(cfg, c);
    var chunks := c.snd.chunks;
    if c.rcv.seqNo < |chunks| {
      FlattenTake(chunks, c.rcv.seqNo);
      FlattenPrefix(chunks, c.rcv.seqNo + 1);
      assert |Flatten(chunks[..c.rcv.seqNo])| < |Flatten(chunks)|;
    } else {
      assert chunks[..c.rcv.seqNo] == chunks;
    }
  }

  /** Reading data until it misses again after the marker was seen makes delivery unconditional. */
  lemma DrainDelivers(cfg: Config, c: Chan)
    requires cfg.drain && Reachable(cfg, true, c) && c.rcv.pc == Stopped(PeerClosed)
    ensures Delivered(c)
  {
    ReachableCloseInv(cfg, c);
    DeliveredIff(cfg, c);
  }

  // ---------------------------------------------------------------- the condition is needed

  lemma {:induction false} Misses(cfg: Config, n: nat) returns (c: Chan)
    requires n < CloseCheckEvery(cfg)
    ensures Reachable(cfg, true, c) && c == NEW_CHAN.(rcv := NEW_RECEIVER.(misses := n, gap := n))
  {
    if n == 0 {
      ReachesSelf(cfg, true, NEW_CHAN);
      c := NEW_CHAN;
    } else {
      var b := Misses(cfg, n - 1);
      c := Step(cfg, true, b, Miss).value;
      ReachesStep(cfg, true, NEW_CHAN, b, Miss, c);
    }
  }

  lemma SendsOneAndCloses(cfg: Config, c: Chan) returns (d: Chan)
    requires cfg.chunkSize > 0 && Reachable(cfg, true, c) && c.snd == NEW_SENDER && c.mail == EMPTY_MAILBOX
    ensures Reachable(cfg, true, d) && d.rcv == c.rcv && d.mail.closed
    ensures d.snd == NEW_SENDER.(pc := Finished, seqNo := 1, sent := 1, taken := [0], chunks := [[0]])
  {
    var c1 := Step(cfg, true, c, Read([0], Ended)).value;
    ReachesStep(cfg, true, NEW_CHAN, c, Read([0], Ended), c1);
    var c2 := Step(cfg, true, c1, Admit).value;
    ReachesStep(cfg, true, NEW_CHAN, c1, Admit, c2);
    var c3 := Step(cfg, true, c2, PutChunk).value;
    ReachesStep(cfg, true, NEW_CHAN, c2, PutChunk, c3);
    d := Step(cfg, true, c3, PutClose).value;
    ReachesStep(cfg, true, NEW_CHAN, c3, PutClose, d);
  }

  /**
   Under every configuration of the loop as written there is a run, with no failure on either side,
   in which the sender sends one chunk and closes, and the receiver reports a clean end without it.
   */
  lemma CloseCanLoseData(cfg: Config) returns (c: Chan)
    requires !cfg.drain && cfg.chunkSize > 0
    ensures Reachable(cfg, true, c) && c.rcv.pc == Stopped(PeerClosed)
    ensures c.snd.chunks == [[0]] && c.snd.lost == [] && c.rcv.written == []
    ensures !Delivered(c)
  {
    var c0 := Misses(cfg, CloseCheckEvery(cfg) - 1);
    var c1 := Step(cfg, true, c0, Miss).value;
    ReachesStep(cfg, true, NEW_CHAN, c0, Miss, c1);
    var c2 := SendsOneAndCloses(cfg, c1);
    c := Step(cfg, true, c2, Head(true)).value;
    ReachesStep(cfg, true, NEW_CHAN, c2, Head(true), c);
    assert Flatten([[0 as byte]]) == Flatten([]) + [0];
  }
}
