/** What every run of a channel keeps, over a weak store, and what follows from it. */
module ChannelSafety {
  import opened Common
  import opened Channel

  lemma SenderDataKept(cfg: Config, s: Sender, m: Move)
    requires SenderData(cfg, s) && SendStep(cfg, s, m).Some?
    ensures SenderData(cfg, SendStep(cfg, s, m).value)
  {
    if m.PutChunk? { FlattenAppend(s.chunks, s.pc.chunk); }
  }

  lemma SenderLimitKept(cfg: Config, s: Sender, m: Move)
    requires SenderLimit(cfg, s) && SendStep(cfg, s, m).Some?
    ensures SenderLimit(cfg, SendStep(cfg, s, m).value)
  {
    if m.PutChunk? { FlattenAppend(s.chunks, s.pc.chunk); }
  }

  lemma SenderWindowKept(cfg: Config, s: Sender, m: Move)
    requires SenderWindow(cfg, s) && SendStep(cfg, s, m).Some?
    ensures SenderWindow(cfg, SendStep(cfg, s, m).value)
  {
  }

  lemma SendAckKept(cfg: Config, s: Sender, acks: seq<nat>, m: Move)
    requires SendAck(cfg.sendWindow, s, acks) && Ascending(acks) && SendStep(cfg, s, m).Some?
    requires m.FetchAck? ==> m.next == 0 || m.next in acks
    ensures SendAck(cfg.sendWindow, SendStep(cfg, s, m).value, acks)
  {
    var used: nat :| Knows(s, cfg.sendWindow, acks, used);
    if m.FetchAck? && m.next > s.acked {
      var j :| 0 <= j < |acks| && acks[j] == m.next;
      assert acks[..j + 1][j] == acks[j];
      assert used <= j;
      assert Knows(SendStep(cfg, s, m).value, cfg.sendWindow, acks, j + 1);
    } else {
      assert Knows(SendStep(cfg, s, m).value, cfg.sendWindow, acks, used);
    }
  }

  /** A new ACK object leaves the sender's knowledge as it was. */
  lemma SendAckStays(s: Sender, window: uint64, acks: seq<nat>, next: nat)
    requires SendAck(window, s, acks)
    ensures SendAck(window, s, acks + [next])
  {
    var used: nat :| Knows(s, window, acks, used);
    assert (acks + [next])[..used] == acks[..used];
    assert Knows(s, window, acks + [next], used);
  }

  lemma MailKept(cfg: Config, s: Sender, mail: Mailbox, r: Receiver, m: Move)
    requires MailInv(s, mail) && IsSend(m) && SendStep(cfg, s, m).Some?
    ensures MailInv(SendStep(cfg, s, m).value, Deliver(mail, EffectOf(s, r, m)))
    ensures Deliver(mail, EffectOf(s, r, m)).acks == mail.acks
  {
  }

  lemma RecvDataStays(cfg: Config, chunks: seq<bytes>, chunk: bytes, r: Receiver)
    requires RecvData(cfg, chunks, r)
    ensures RecvData(cfg, chunks + [chunk], r)
  {
    assert (chunks + [chunk])[..r.seqNo] == chunks[..r.seqNo];
    FlattenAppend(chunks, chunk);
  }

  lemma RecvDataKept(cfg: Config, chunks: seq<bytes>, r: Receiver, m: Move)
    requires RecvData(cfg, chunks, r) && RecvStep(cfg, r, m).Some?
    requires m.Hit? ==> r.seqNo < |chunks| && m.plain == chunks[r.seqNo]
    ensures RecvData(cfg, chunks, RecvStep(cfg, r, m).value)
  {
    if m.Write? || m.WriteFail? {
      FlattenTake(chunks, r.seqNo);
      FlattenPrefix(chunks, r.seqNo + 1);
    }
  }

  lemma RecvLimitKept(cfg: Config, r: Receiver, m: Move)
    requires RecvLimit(cfg, r) && RecvStep(cfg, r, m).Some?
    requires m.Hit? ==> |m.plain| <= cfg.chunkSize
    ensures RecvLimit(cfg, RecvStep(cfg, r, m).value)
  {
  }

  lemma RecvAckKept(cfg: Config, acks: seq<nat>, r: Receiver, m: Move)
    requires RecvAck(AckInterval(cfg.recvWindow), acks, r) && RecvStep(cfg, r, m).Some?
    ensures var after := if m.PutAck? then acks + [r.seqNo] else acks;
            RecvAck(AckInterval(cfg.recvWindow), after, RecvStep(cfg, r, m).value)
  {
  }

  lemma AckGridKept(e: nat, acks: seq<nat>, next: nat)
    requires AckGrid(e, acks) && next == LastOf(acks) + e
    ensures AckGrid(e, acks + [next])
  {
    assert (|acks| + 1) * e == |acks| * e + e;
  }

  lemma RecvMissesKept(cfg: Config, r: Receiver, m: Move)
    requires RecvMisses(CloseCheckEvery(cfg), r) && RecvStep(cfg, r, m).Some?
    ensures RecvMisses(CloseCheckEvery(cfg), RecvStep(cfg, r, m).value)
  {
    var k := CloseCheckEvery(cfg);
    assert (r.heads + 1) * k == r.heads * k + k;
  }

  lemma InvNew(cfg: Config)
    ensures Inv(cfg, NEW_CHAN)
  {
    var acks := NEW_CHAN.mail.acks;
    assert Knows(NEW_SENDER, cfg.sendWindow, acks, 0);
    assert SendAck(cfg.sendWindow, NEW_SENDER, acks);
    assert RecvMisses(CloseCheckEvery(cfg), NEW_RECEIVER);
    assert RecvAck(AckInterval(cfg.recvWindow), acks, NEW_RECEIVER);
    assert AckGrid(AckInterval(cfg.recvWindow), acks);
    assert RecvData(cfg, [], NEW_RECEIVER) && RecvLimit(cfg, NEW_RECEIVER);
  }

  lemma SendChunks(cfg: Config, s: Sender, m: Move)
    requires SendStep(cfg, s, m).Some?
    ensures SendStep(cfg, s, m).value.chunks == if m.PutChunk? then s.chunks + [Pending(s.pc)] else s.chunks
  {
  }

  lemma InvSend(cfg: Config, strong: bool, c: Chan, m: Move)
    requires Inv(cfg, c) && IsSend(m) && Step(cfg, strong, c, m).Some?
    ensures Inv(cfg, Step(cfg, strong, c, m).value)
  {
    var s := SendStep(cfg, c.snd, m).value;
    assert RecvData(cfg, s.chunks, c.rcv) by {
      SendChunks(cfg, c.snd, m);
      RecvDataStays(cfg, c.snd.chunks, Pending(c.snd.pc), c.rcv);
    }
    assert SenderData(cfg, s) by { SenderDataKept(cfg, c.snd, m); }
    assert SenderLimit(cfg, s) by { SenderLimitKept(cfg, c.snd, m); }
    assert SenderWindow(cfg, s) by { SenderWindowKept(cfg, c.snd, m); }
    assert SendAck(cfg.sendWindow, s, c.mail.acks) by { SendAckKept(cfg, c.snd, c.mail.acks, m); }
    MailKept(cfg, c.snd, c.mail, c.rcv, m);
  }

  /** The mailbox after a move of the receiver: at most one ACK more. */
  lemma AcksKept(cfg: Config, s: Sender, r: Receiver, mail: Mailbox, m: Move)
    requires AckGrid(AckInterval(cfg.recvWindow), mail.acks) && SendAck(cfg.sendWindow, s, mail.acks)
    requires MailInv(s, mail)
    requires RecvAck(AckInterval(cfg.recvWindow), mail.acks, r) && !IsSend(m) && RecvStep(cfg, r, m).Some?
    ensures var after := Deliver(mail, EffectOf(s, r, m));
            && after == mail.(acks := if m.PutAck? then mail.acks + [r.seqNo] else mail.acks)
            && AckGrid(AckInterval(cfg.recvWindow), after.acks) && SendAck(cfg.sendWindow, s, after.acks)
            && MailInv(s, after)
  {
    if m.PutAck? {
      AckGridKept(AckInterval(cfg.recvWindow), mail.acks, r.seqNo);
      SendAckStays(s, cfg.sendWindow, mail.acks, r.seqNo);
    }
  }

  /** What a possible move of the receiver leads to. */
  lemma RecvStepForm(cfg: Config, strong: bool, c: Chan, m: Move)
    requires !IsSend(m) && Step(cfg, strong, c, m).Some?
    ensures RecvStep(cfg, c.rcv, m).Some?
    ensures var d := Step(cfg, strong, c, m).value;
            && d.mail == Deliver(c.mail, EffectOf(c.snd, c.rcv, m))
            && d.snd == c.snd && d.rcv == RecvStep(cfg, c.rcv, m).value
    ensures m.Hit? ==> c.rcv.seqNo in c.mail.data && c.mail.data[c.rcv.seqNo] == m.plain
    ensures m == Head(true) ==> c.mail.closed
  {
  }

  lemma RecvPartsKept(cfg: Config, c: Chan, m: Move)
    requires Inv(cfg, c) && !IsSend(m) && RecvStep(cfg, c.rcv, m).Some?
    requires m.Hit? ==> c.rcv.seqNo in c.mail.data && c.mail.data[c.rcv.seqNo] == m.plain
    requires m == Head(true) ==> c.mail.closed
    ensures var r := RecvStep(cfg, c.rcv, m).value;
            && RecvData(cfg, c.snd.chunks, r) && RecvLimit(cfg, r) && RecvMisses(CloseCheckEvery(cfg), r)
            && (r.sawClose ==> c.mail.closed)
  {
    RecvDataKept(cfg, c.snd.chunks, c.rcv, m);
    RecvLimitKept(cfg, c.rcv, m);
    RecvMissesKept(cfg, c.rcv, m);
  }

  lemma InvRecv(cfg: Config, strong: bool, c: Chan, m: Move)
    requires Inv(cfg, c) && !IsSend(m) && Step(cfg, strong, c, m).Some?
    ensures Inv(cfg, Step(cfg, strong, c, m).value)
  {
    RecvStepForm(cfg, strong, c, m);
    RecvPartsKept(cfg, c, m);
    AcksKept(cfg, c.snd, c.rcv, c.mail, m);
    RecvAckKept(cfg, c.mail.acks, c.rcv, m);
  }

  lemma InvStep(cfg: Config, strong: bool, c: Chan, m: Move)
    requires Inv(cfg, c) && Step(cfg, strong, c, m).Some?
    ensures Inv(cfg, Step(cfg, strong, c, m).value)
  {
    if IsSend(m) { InvSend(cfg, strong, c, m); } else { InvRecv(cfg, strong, c, m); }
  }

  lemma {:induction false} InvRun(cfg: Config, strong: bool, c: Chan, moves: seq<Move>)
    requires Inv(cfg, c) && Run(cfg, strong, c, moves).Some?
    ensures Inv(cfg, Run(cfg, strong, c, moves).value)
  {
    if moves != [] {
      var front := moves[..|moves| - 1];
      InvRun(cfg, strong, c, front);
      InvStep(cfg, strong, Run(cfg, strong, c, front).value, moves[|moves| - 1]);
    }
  }

  lemma ReachableInv(cfg: Config, strong: bool, c: Chan)
    requires Reachable(cfg, strong, c)
    ensures Inv(cfg, c)
  {
    var moves :| Run(cfg, strong, NEW_CHAN, moves) == Some(c);
    InvNew(cfg);
    InvRun(cfg, strong, NEW_CHAN, moves);
  }

  // ---------------------------------------------------------------- what the users of a tunnel see

  /** The receiver has written a prefix of what the sender took; the rest is accounted for. */
  lemma WrittenIsPrefix(cfg: Config, strong: bool, c: Chan)
    requires Reachable(cfg, strong, c)
    ensures c.rcv.written <= c.snd.taken
    ensures c.snd.taken == Flatten(c.snd.chunks) + Pending(c.snd.pc) + c.snd.lost
    ensures c.rcv.seqNo <= |c.snd.chunks|
    ensures c.rcv.pc != Stopped(Failed) ==> c.rcv.written == Flatten(c.snd.chunks[..c.rcv.seqNo])
  {
    ReachableInv(cfg, strong, c);
  }

  /** The mailbox holds the PUT chunks and nothing else; none is empty or over the negotiated size. */
  lemma DataObjects(cfg: Config, strong: bool, c: Chan)
    requires Reachable(cfg, strong, c)
    ensures forall n: nat :: n in c.mail.data <==> n < |c.snd.chunks|
    ensures forall n: nat :: n in c.mail.data ==>
              c.mail.data[n] == c.snd.chunks[n] && 0 < |c.mail.data[n]| <= cfg.chunkSize
    ensures cfg.sendMax > 0 && cfg.sendMax + cfg.chunkSize <= I64_MAX ==> |Flatten(c.snd.chunks)| <= cfg.sendMax
    ensures |c.snd.lost| <= cfg.chunkSize
  {
    ReachableInv(cfg, strong, c);
  }

  /** The receiver writes no more than its byte limit, as long as the sum that tests it does not wrap. */
  lemma OutputWithinLimit(cfg: Config, strong: bool, c: Chan)
    requires Reachable(cfg, strong, c) && cfg.recvMax > 0 && cfg.recvMax + cfg.chunkSize <= I64_MAX
    ensures |c.rcv.written| <= cfg.recvMax
    ensures |Flatten(c.snd.chunks)| > cfg.recvMax ==>
              c.rcv.seqNo < |c.snd.chunks| && c.rcv.written != Flatten(c.snd.chunks)
  {
    ReachableInv(cfg, strong, c);
    assert c.snd.chunks[..|c.snd.chunks|] == c.snd.chunks;
  }

  /** Data objects are never overwritten or removed, and the stored ACK never goes back. */
  lemma StoreOnlyGrows(cfg: Config, strong: bool, c: Chan, m: Move)
    requires Reachable(cfg, strong, c) && Step(cfg, strong, c, m).Some?
    ensures var d := Step(cfg, strong, c, m).value;
            && (m.PutChunk? ==> c.snd.seqNo !in c.mail.data)
            && (forall n: nat :: n in c.mail.data ==> n in d.mail.data && d.mail.data[n] == c.mail.data[n])
            && StoredAck(c.mail) <= StoredAck(d.mail)
            && (c.mail.closed ==> d.mail == c.mail.(acks := d.mail.acks))
  {
    ReachableInv(cfg, strong, c);
  }

  /** The sender's cached ACK, the stored ACK and the two sequence numbers stay in order. */
  lemma SequenceOrder(cfg: Config, strong: bool, c: Chan)
    requires Reachable(cfg, strong, c)
    ensures c.snd.acked <= StoredAck(c.mail) <= c.rcv.seqNo <= c.snd.seqNo
    ensures cfg.sendWindow > 0 ==> c.snd.seqNo <= c.snd.acked + cfg.sendWindow
  {
    ReachableInv(cfg, strong, c);
    CachedIsOld(cfg, c);
  }

  lemma CachedIsOld(cfg: Config, c: Chan)
    requires Inv(cfg, c)
    ensures c.snd.acked <= StoredAck(c.mail)
    ensures c.snd.waits <= |c.mail.acks|
  {
    var acks := c.mail.acks;
    var used: nat :| Knows(c.snd, cfg.sendWindow, acks, used);
    if used > 0 { assert acks[..used][used - 1] == acks[used - 1]; }
  }

  /**
   A chunk that the cached ACK admits, a fresh read of the ACK, or any ACK stored in between, admits
   too, if and only if the 64-bit sum of that ACK and the window does not wrap.
   */
  lemma CachedCheckIsConservative(cfg: Config, strong: bool, c: Chan)
    requires Reachable(cfg, strong, c) && Admits(c.snd.seqNo, c.snd.acked, cfg.sendWindow)
    ensures c.snd.acked <= StoredAck(c.mail)
    ensures forall newer: nat :: c.snd.acked <= newer <= StoredAck(c.mail) ==>
              (Admits(c.snd.seqNo, newer, cfg.sendWindow) <==> cfg.sendWindow == 0 || newer + cfg.sendWindow < U64)
    ensures cfg.sendWindow > 0 ==> c.snd.seqNo - StoredAck(c.mail) < cfg.sendWindow
  {
    SequenceOrder(cfg, strong, c);
    forall newer: nat | c.snd.acked <= newer <= StoredAck(c.mail)
      ensures Admits(c.snd.seqNo, newer, cfg.sendWindow) <==> cfg.sendWindow == 0 || newer + cfg.sendWindow < U64
    {
      WrappedSum(newer, cfg.sendWindow);
      WrappedSum(c.snd.acked, cfg.sendWindow);
    }
  }

  /** A sum that wraps comes out below both of its parts. */
  lemma WrappedSum(acked: nat, window: uint64)
    ensures acked + window < U64 ==> (acked + window) % U64 == acked + window
    ensures acked + window >= U64 ==> (acked + window) % U64 < acked
    ensures (acked + window) % U64 <= acked + window
  {
  }

  /** As long as the sum does not wrap, the limit test is what it looks like. */
  lemma ExceedsIff(total: nat, n: nat, limit: nat)
    requires total + n <= I64_MAX
    ensures Exceeds(total, n, limit) <==> 0 < limit < total + n
  {
  }

  /**
   * n chunks cost exactly n / E ACK objects, holding E, 2E, ...; the sender completes at most that
   * many slow waits; and it reads no ACK before it holds more chunks than its window.
   */
  lemma AckTraffic(cfg: Config, strong: bool, c: Chan)
    requires Reachable(cfg, strong, c)
    ensures var e := AckInterval(cfg.recvWindow);
            && (!c.rcv.pc.Acking? && c.rcv.pc != Stopped(Failed) ==>
                  |c.mail.acks| == c.rcv.seqNo / e && c.rcv.lastAck == c.rcv.seqNo / e * e)
            && (forall i :: 0 <= i < |c.mail.acks| ==> c.mail.acks[i] == (i + 1) * e)
            && c.snd.waits <= c.rcv.seqNo / e
    ensures c.snd.ackGets > 0 ==>
              0 < cfg.sendWindow < |c.snd.chunks| + if |Pending(c.snd.pc)| + |c.snd.lost| > 0 then 1 else 0
  {
    ReachableInv(cfg, strong, c);
    CachedIsOld(cfg, c);
    AckCount(AckInterval(cfg.recvWindow), c.mail.acks, c.rcv);
  }

  lemma AckCount(e: nat, acks: seq<nat>, r: Receiver)
    requires e > 0 && AckGrid(e, acks) && RecvAck(e, acks, r)
    ensures |acks| <= r.seqNo / e
    ensures r.seqNo < r.lastAck + e ==> |acks| == r.seqNo / e && r.lastAck == r.seqNo / e * e
  {
    assert r.lastAck == |acks| * e;
    if r.seqNo < r.lastAck + e {
      Quotient(r.seqNo, |acks|, e, r.seqNo - r.lastAck);
    } else {
      assert (|acks| + 1) * e == |acks| * e + e;
      Quotient(r.seqNo, |acks| + 1, e, 0);
    }
  }

  /** A gap of n data misses costs exactly n / K close HEADs. */
  lemma CloseChecks(cfg: Config, strong: bool, c: Chan)
    requires Reachable(cfg, strong, c) && c.rcv.pc.Getting? && !c.rcv.sawClose
    ensures c.rcv.heads == c.rcv.gap / CloseCheckEvery(cfg)
    ensures c.rcv.misses == c.rcv.gap % CloseCheckEvery(cfg)
    ensures cfg.closeCheckAfterMisses > 0 ==> c.rcv.heads == c.rcv.gap / cfg.closeCheckAfterMisses
    ensures cfg.closeCheckAfterMisses <= 0 ==> c.rcv.heads == c.rcv.gap / 4
  {
    ReachableInv(cfg, strong, c);
    Quotient(c.rcv.gap, c.rcv.heads, CloseCheckEvery(cfg), c.rcv.misses);
  }
}
