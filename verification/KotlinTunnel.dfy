/** Where the Kotlin tunnel client differs from the Go one: signed sums, other defaults, a throwing reader. */
module KotlinTunnel {
  import opened Common
  import opened Channel
  import opened Aggregation
  import opened Loops
  import ChannelSafety
  import Polling

  predicate KotlinAdmits(seqNo: nat, acked: nat, windowChunks: int) {
    windowChunks == 0 || seqNo < Wrap64(acked + windowChunks)
  }

  /** On Kotlin's own range of numbers the two window tests agree exactly while the signed sum does not overflow. */
  lemma WindowTestsAgreeIff(seqNo: nat, acked: nat, window: nat)
    requires seqNo <= I64_MAX && acked <= I64_MAX && window <= I64_MAX
    ensures KotlinAdmits(seqNo, acked, window) == Admits(seqNo, acked, window) <==>
              window == 0 || acked + window <= I64_MAX
  {
  }

  function KotlinAckInterval(window: int): int { if window <= 2 then 1 else window / 2 }

  function KotlinCloseCheckEvery(closeCheckAfterMisses: int): int { Max(closeCheckAfterMisses, 1) }

  /** The same settings give the same receiver, except that a non-positive close check means 1 here and 4 there. */
  lemma ReceiversAgreeIff(cfg: Config)
    ensures KotlinAckInterval(cfg.recvWindow) == AckInterval(cfg.recvWindow)
    ensures KotlinCloseCheckEvery(cfg.closeCheckAfterMisses) == CloseCheckEvery(cfg) <==> cfg.closeCheckAfterMisses >= 1
  {
  }

  datatype UploadResult = UploadClosed | UploadFailed | ReaderThrew

  lemma StopReading(cfg: Config, strong: bool, safe: Chan -> bool, c: Chan)
    requires Kept(cfg, strong, safe) && safe(c) && c.snd.pc.Reading? && c.snd.lost == []
    ensures safe(c.(snd := c.snd.(pc := Finished)))
  {
    MoveGiveUp(cfg, strong, safe, c);
    assert GaveUp(c.snd) == c.snd.(pc := Finished);
  }

  method EndUpload(host: SendHost, ghost safe: Chan -> bool, ghost me0: Sender)
      returns (result: UploadResult, ghost me: Sender)
    requires Kept(host.cfg, host.strong, safe) && safe(host.At(me0)) && me0.pc.Reading? && !host.failed
    modifies host
    ensures safe(host.At(me)) && me == me0.(pc := Finished)
    ensures result == if host.failed then UploadFailed else UploadClosed
    ensures result == UploadClosed ==> host.mail.closed
    ensures host.puts == old(host.puts) + 1 && host.ackReads == old(host.ackReads)
  {
    MoveRead(host.cfg, host.strong, safe, host.At(me0), [], Ended);
    var done, last := CloseChannel(host, safe, me0.(pc := Closing));
    return if done then UploadClosed else UploadFailed, last;
  }

  /** What an aggregate that threw had read is dropped: some bytes iff it was not its first read that threw. */
  ghost predicate Drops(last: Batch, dropped: bytes, size: nat) {
    && last.read == Threw && last.outs != [] && last.outs[|last.outs| - 1] == Outcome([], Broken)
    && dropped == Taken(last.outs) && |dropped| <= size
    && (dropped != [] <==> |last.outs| > 1)
  }

  /**
   How an upload may end, given its last aggregate: with the end of the stream and a close marker; with a
   failed request or a cancelled context; or with a reader that throws, and then it writes no marker.
   */
  ghost predicate Gone(host: SendHost, me: Sender, last: Batch, dropped: bytes, closed: bool, result: UploadResult)
    reads host
  {
    match result
    case UploadClosed =>
      !host.failed && last.read == EndOfStream && dropped == [] && me.lost == [] && host.mail.closed
    case UploadFailed => dropped == [] && (host.failed || host.schedule == [])
    case ReaderThrew =>
      && !host.failed && Drops(last, dropped, host.cfg.chunkSize) && me.lost == [] && host.mail.closed == closed
  }

  /** The reader's history since an upload began: all it returned, and the calls of `readAggregated`. */
  ghost predicate KotlinHistory(reader: Reader, from: Origin, all: seq<Outcome>, calls: seq<KotlinCall>)
    reads reader
  {
    reader.log == from.log + all && reader.kotlinCalls == from.calls + calls
  }

  /** What had happened before an upload began. */
  datatype Origin = Origin(log: seq<Outcome>, calls: seq<KotlinCall>, puts: nat, ackReads: nat, closed: bool)

  /** One aggregated read that continues that history. */
  method ReadNext(size: nat, flushDelayMillis: int, reader: Reader, ghost from: Origin, ghost all0: seq<Outcome>,
                  ghost calls0: seq<KotlinCall>)
      returns (read: KotlinRead, ghost all: seq<Outcome>, ghost batch: Batch)
    requires size > 0 && KotlinHistory(reader, from, all0, calls0)
    modifies reader
    ensures KotlinHistory(reader, from, all, calls0 + [KotlinCall(size, flushDelayMillis, batch)])
    ensures batch == KotlinAggregate(old(reader.script), size, flushDelayMillis)
    ensures Taken(all) == Taken(all0) + Taken(batch.outs) && EndsWith(reader.log, batch.outs)
    ensures batch.read == read && batch.rest == reader.script
  {
    read, batch := ReadAggregated(size, flushDelayMillis, reader);
    all := all0 + batch.outs;
    TakenConcat(all0, batch.outs);
    Associates(from.log, all0, batch.outs);
    Associates(from.calls, calls0, [KotlinCall(size, flushDelayMillis, batch)]);
  }

  /** The data of the aggregates that yielded some. */
  ghost function Plains(calls: seq<KotlinCall>): seq<bytes> {
    if calls == [] then [] else Plains(calls[..|calls| - 1]) + PlainOf(calls[|calls| - 1].batch.read)
  }

  function PlainOf(read: KotlinRead): seq<bytes> {
    if read.Plain? && read.plain != [] then [read.plain] else []
  }

  lemma PlainsMore(calls: seq<KotlinCall>, call: KotlinCall)
    ensures Plains(calls + [call]) == Plains(calls) + PlainOf(call.batch.read)
  {
    assert (calls + [call])[..|calls|] == calls;
  }

  /** What the Kotlin sender loop does with one aggregate; None means that it goes on. */
  method UploadRead(host: SendHost, read: KotlinRead, seqNo: nat, sent: nat, window: SendWindow,
                    ghost safe: Chan -> bool, ghost me0: Sender, ghost from: Origin, ghost last: Batch)
      returns (ended: Option<UploadResult>, ghost me: Sender, ghost dropped: bytes)
    requires host.cfg.chunkSize > 0 && host.cfg.sendMax == 0 && !host.failed
    requires Kept(host.cfg, host.strong, safe) && safe(host.At(me0)) && Between(me0, seqNo, sent, window)
    requires Counted(host, me0, from.puts, from.ackReads) && read == last.read
    requires read.Plain? ==> read.plain == Taken(last.outs) && |read.plain| <= host.cfg.chunkSize
    requires read == EndOfStream ==> Taken(last.outs) == []
    requires read == Threw ==> Drops(last, Taken(last.outs), host.cfg.chunkSize)
    modifies host, window
    ensures safe(host.At(me)) && me.taken + dropped == me0.taken + Taken(last.outs)
    ensures Pieces(me) == me0.chunks + PlainOf(read)
    ensures ended.Some? ==> me.pc.Finished? && Gone(host, me, last, dropped, old(host.mail.closed), ended.value)
    ensures ended.None? ==>
              && dropped == [] && read.Plain? && host.mail.closed == old(host.mail.closed) && !host.failed
              && Between(me, if read.plain != [] then seqNo + 1 else seqNo, sent + |read.plain|, window)
              && Counted(host, me, from.puts, from.ackReads)
    ensures read == EndOfStream ==> ended == Some(if host.failed then UploadFailed else UploadClosed)
    ensures read == Plain([]) ==> ended == None
    ensures read.Plain? && ended.Some? ==> host.failed || me.lost != []
    ensures read == Threw ==> ended == Some(ReaderThrew) && me == me0.(pc := Finished)
  {
    me, dropped, ended := me0, [], None;
    if read == EndOfStream {
      var result;
      result, me := EndUpload(host, safe, me);
      return Some(result), me, [];
    }
    if read == Threw {
      StopReading(host.cfg, host.strong, safe, host.At(me));
      return Some(ReaderThrew), me.(pc := Finished), Taken(last.outs);
    }
    if read.plain != [] {
      var failure;
      failure, me := SendChunk(host, read.plain, More, seqNo, sent, window, safe, me, from.puts, from.ackReads);
      if failure.Some? { ended := Some(UploadFailed); }
    }
  }

  /** The last aggregate of an upload that made some. */
  ghost function LastOf(calls: seq<KotlinCall>): Batch
    requires calls != []
  {
    calls[|calls| - 1].batch
  }

  /** How the Kotlin loop ends: cancelled before its next aggregate, or as its last aggregate decides. */
  ghost predicate KotlinEnds(host: SendHost, reader: Reader, me: Sender, calls: seq<KotlinCall>, dropped: bytes,
                             closed: bool, result: UploadResult)
    reads host, reader
  {
    if calls == [] || (LastOf(calls).read.Plain? && !host.failed && me.lost == []) then
      result == UploadFailed && host.schedule == [] && dropped == [] && host.mail.closed == closed
    else
      && Gone(host, me, LastOf(calls), dropped, closed, result) && EndsWith(reader.log, LastOf(calls).outs)
      && (LastOf(calls).read == EndOfStream ==> result == if host.failed then UploadFailed else UploadClosed)
      && (LastOf(calls).read == Threw ==> result == ReaderThrew)
  }

  /** All calls were made with these settings. */
  ghost predicate KotlinCalledWith(calls: seq<KotlinCall>, size: nat, flushDelayMillis: int) {
    forall i :: 0 <= i < |calls| ==> calls[i].size == size && calls[i].flushDelayMillis == flushDelayMillis
  }

  /** One round of the Kotlin sender loop in a live context; None means that it goes on, `n` bytes further. */
  method LiveRound(host: SendHost, flushDelayMillis: int, reader: Reader, seqNo: nat, sent: nat, window: SendWindow,
                   ghost safe: Chan -> bool, ghost me0: Sender, ghost from: Origin, ghost all0: seq<Outcome>,
                     ghost calls0: seq<KotlinCall>)
      returns (ended: Option<UploadResult>, n: nat, ghost me: Sender, ghost all: seq<Outcome>, ghost dropped: bytes,
               ghost last: Batch)
    requires host.cfg.chunkSize > 0 && host.cfg.sendMax == 0 && !host.failed
    requires Kept(host.cfg, host.strong, safe) && safe(host.At(me0)) && Between(me0, seqNo, sent, window)
    requires KotlinHistory(reader, from, all0, calls0) && Taken(all0) == me0.taken
    requires Counted(host, me0, from.puts, from.ackReads)
    modifies host, reader, window
    ensures KotlinHistory(reader, from, all, calls0 + [KotlinCall(host.cfg.chunkSize, flushDelayMillis, last)])
    ensures last == KotlinAggregate(old(reader.script), host.cfg.chunkSize, flushDelayMillis)
    ensures safe(host.At(me)) && Taken(all) == me.taken + dropped && Pieces(me) == me0.chunks + PlainOf(last.read)
    ensures ended.Some? ==> me.pc.Finished? && Gone(host, me, last, dropped, old(host.mail.closed), ended.value)
    ensures ended.None? ==>
              && Between(me, if n > 0 then seqNo + 1 else seqNo, sent + n, window) && !host.failed && dropped == []
              && host.mail.closed == old(host.mail.closed) && Counted(host, me, from.puts, from.ackReads)
              && last.read.Plain? && Size(reader.script) < old(Size(reader.script))
    ensures last.read == EndOfStream ==> ended == Some(if host.failed then UploadFailed else UploadClosed)
    ensures last.read.Plain? && ended.Some? ==> host.failed || me.lost != []
    ensures EndsWith(reader.log, last.outs)
    ensures last.read == Threw ==> ended == Some(ReaderThrew) && me == me0.(pc := Finished)
  {
    KotlinAggregateFacts(reader.script, host.cfg.chunkSize, flushDelayMillis);
    var read;
    read, all, last := ReadNext(host.cfg.chunkSize, flushDelayMillis, reader, from, all0, calls0);
    if read == EndOfStream { TakenOne(Outcome([], Eof)); }
    n := if read.Plain? then |read.plain| else 0;
    ended, me, dropped := UploadRead(host, read, seqNo, sent, window, safe, me0, from, last);
  }

  /** The Kotlin sender between two rounds. */
  ghost predicate KotlinGoes(host: SendHost, flushDelayMillis: int, reader: Reader, me: Sender, from: Origin,
                             all: seq<Outcome>, calls: seq<KotlinCall>)
    reads host, reader
  {
    && !host.failed && host.mail.closed == from.closed && Counted(host, me, from.puts, from.ackReads)
    && KotlinHistory(reader, from, all, calls) && Taken(all) == me.taken && me.chunks == Plains(calls)
    && KotlinCalledWith(calls, host.cfg.chunkSize, flushDelayMillis)
    && (calls != [] ==> LastOf(calls).read.Plain?)
  }

  /** The Kotlin sender after its last round. */
  ghost predicate KotlinGone(host: SendHost, flushDelayMillis: int, reader: Reader, me: Sender, from: Origin,
                             all: seq<Outcome>, calls: seq<KotlinCall>, dropped: bytes, result: UploadResult)
    reads host, reader
  {
    && me.pc.Finished? && KotlinHistory(reader, from, all, calls) && Taken(all) == me.taken + dropped
    && Pieces(me) == Plains(calls) && KotlinCalledWith(calls, host.cfg.chunkSize, flushDelayMillis)
    && KotlinEnds(host, reader, me, calls, dropped, from.closed, result)
  }

  /** One round of the Kotlin sender loop; None means that it goes on, `n` bytes further. */
  method UploadRound(host: SendHost, flushDelayMillis: int, reader: Reader, seqNo: nat, sent: nat, window: SendWindow,
                     ghost safe: Chan -> bool, ghost me0: Sender, ghost from: Origin, ghost all0: seq<Outcome>,
                     ghost calls0: seq<KotlinCall>)
      returns (ended: Option<UploadResult>, n: nat, ghost me: Sender, ghost all: seq<Outcome>, ghost dropped: bytes,
               ghost calls: seq<KotlinCall>)
    requires host.cfg.chunkSize > 0 && host.cfg.sendMax == 0
    requires Kept(host.cfg, host.strong, safe) && safe(host.At(me0)) && Between(me0, seqNo, sent, window)
    requires KotlinGoes(host, flushDelayMillis, reader, me0, from, all0, calls0)
    modifies host, reader, window
    ensures safe(host.At(me))
    ensures ended.None? ==>
              && KotlinGoes(host, flushDelayMillis, reader, me, from, all, calls)
              && Between(me, if n > 0 then seqNo + 1 else seqNo, sent + n, window)
              && Size(reader.script) < old(Size(reader.script))
    ensures ended.Some? ==> KotlinGone(host, flushDelayMillis, reader, me, from, all, calls, dropped, ended.value)
    ensures old(host.schedule) == [] ==> ended == Some(UploadFailed) && calls == calls0
    ensures var next := KotlinAggregate(old(reader.script), host.cfg.chunkSize, flushDelayMillis);
            old(host.schedule) != [] && next.read == Threw ==>
              && ended.Some? && me == me0.(pc := Finished)
              && calls == calls0 + [KotlinCall(host.cfg.chunkSize, flushDelayMillis, next)]
  {
    if host.schedule == [] {
      StopReading(host.cfg, host.strong, safe, host.At(me0));
      return Some(UploadFailed), 0, me0.(pc := Finished), all0, [], calls0;
    }
    ghost var last;
    ended, n, me, all, dropped, last :=
      LiveRound(host, flushDelayMillis, reader, seqNo, sent, window, safe, me0, from, all0, calls0);
    PlainsMore(calls0, KotlinCall(host.cfg.chunkSize, flushDelayMillis, last));
    calls := calls0 + [KotlinCall(host.cfg.chunkSize, flushDelayMillis, last)];
  }

  /** The Kotlin `streamToStore`: one chunk for each aggregate with data; the last aggregate decides how it ends. */
  method KotlinStreamToStore(host: SendHost, flushDelayMillis: int, reader: Reader, ghost safe: Chan -> bool)
      returns (result: UploadResult, ghost me: Sender, ghost all: seq<Outcome>, ghost dropped: bytes,
               ghost calls: seq<KotlinCall>)
    requires host.cfg.chunkSize > 0 && host.cfg.sendMax == 0
    requires Kept(host.cfg, host.strong, safe) && safe(host.At(NEW_SENDER)) && !host.failed
    modifies host, reader
    ensures safe(host.At(me))
    ensures var from := old(Origin(reader.log, reader.kotlinCalls, host.puts, host.ackReads, host.mail.closed));
            KotlinGone(host, flushDelayMillis, reader, me, from, all, calls, dropped, result)
    ensures old(host.schedule) == [] ==> calls == []
    ensures var first := KotlinAggregate(old(reader.script), host.cfg.chunkSize, flushDelayMillis);
            old(host.schedule) != [] && first.read == Threw ==>
              calls == [KotlinCall(host.cfg.chunkSize, flushDelayMillis, first)] && me == NEW_SENDER.(pc := Finished)
  {
    var window := new SendWindow();
    var seqNo: nat, sent: nat := 0, 0;
    ghost var from := Origin(reader.log, reader.kotlinCalls, host.puts, host.ackReads, host.mail.closed);
    me, all, calls := NEW_SENDER, [], [];
    ghost var first := KotlinAggregate(reader.script, host.cfg.chunkSize, flushDelayMillis);
    ghost var script, doomed := reader.script, host.schedule != [] && first.read == Threw;
    while true
      invariant Between(me, seqNo, sent, window) && safe(host.At(me))
      invariant KotlinGoes(host, flushDelayMillis, reader, me, from, all, calls)
      invariant old(host.schedule) == [] ==> host.schedule == [] && calls == []
      invariant doomed ==> reader.script == script && host.schedule != [] && me == NEW_SENDER && calls == []
      decreases Size(reader.script)
    {
      var ended, n;
      ended, n, me, all, dropped, calls :=
        UploadRound(host, flushDelayMillis, reader, seqNo, sent, window, safe, me, from, all, calls);
      if ended.Some? { return ended.value, me, all, dropped, calls; }
      seqNo, sent := if n > 0 then seqNo + 1 else seqNo, sent + n;
    }
  }

  /**
   A whole Kotlin upload, started anywhere in a run of the channel: the mailbox holds exactly the chunks,
   and they, what was lost with a failed request and what was dropped are all that the reader yielded.
   */
  method KotlinUpload(host: SendHost, flushDelayMillis: int, reader: Reader)
      returns (result: UploadResult, ghost chunks: seq<bytes>, ghost lost: bytes, ghost dropped: bytes,
               ghost calls: seq<KotlinCall>)
    requires host.cfg.chunkSize > 0 && host.cfg.sendMax == 0
    requires Reachable(host.cfg, host.strong, host.At(NEW_SENDER)) && !host.failed
    modifies host, reader
    ensures Taken(reader.log) == Taken(old(reader.log)) + (Flatten(chunks) + lost + dropped)
    ensures Holding(host.cfg, host.mail, chunks)
    ensures reader.kotlinCalls == old(reader.kotlinCalls) + calls
    ensures KotlinCalledWith(calls, host.cfg.chunkSize, flushDelayMillis)
    ensures chunks + (if lost == [] then [] else [lost]) == Plains(calls)
    ensures result == UploadClosed <==> calls != [] && LastOf(calls).read == EndOfStream && !host.failed
    ensures result == ReaderThrew <==> calls != [] && LastOf(calls).read == Threw
    ensures match result
            case UploadClosed => lost == dropped == [] && host.mail.closed
            case UploadFailed => dropped == [] && (host.failed || host.schedule == [])
            case ReaderThrew =>
              && Drops(LastOf(calls), dropped, host.cfg.chunkSize) && EndsWith(reader.log, LastOf(calls).outs)
              && lost == [] && !host.mail.closed && !host.failed
    ensures var first := KotlinAggregate(old(reader.script), host.cfg.chunkSize, flushDelayMillis);
            old(host.schedule) != [] && first.read == Threw ==>
              calls == [KotlinCall(host.cfg.chunkSize, flushDelayMillis, first)]
  {
    ReachableIsKept(host.cfg, host.strong);
    NotYetClosed(host.cfg, host.strong, host.At(NEW_SENDER));
    ghost var me, all;
    ghost var log := reader.log;
    result, me, all, dropped, calls :=
      KotlinStreamToStore(host, flushDelayMillis, reader, Reached(host.cfg, host.strong));
    TakenConcat(log, all);
    chunks, lost := me.chunks, me.lost;
    AfterUpload(host.cfg, host.strong, host.At(me));
  }

  lemma NotYetClosed(cfg: Config, strong: bool, c: Chan)
    requires Reachable(cfg, strong, c) && !c.snd.pc.Finished?
    ensures !c.mail.closed
  {
    ChannelSafety.ReachableInv(cfg, strong, c);
  }

  lemma NothingStored(cfg: Config, mail: Mailbox, chunks: seq<bytes>)
    requires Holding(cfg, mail, chunks) && chunks == []
    ensures mail.data == map[]
  {
    assert forall n: nat :: n !in mail.data.Keys;
    assert mail.data.Keys == {};
  }

  lemma TakenPair(o: Outcome, p: Outcome)
    ensures Taken([o, p]) == o.data + p.data
  {
    TakenOne(o);
    TakenAppend([o], p);
    assert [o] + [p] == [o, p];
  }

  /** A connection that breaks right behind its last byte: no request fails, and the byte is gone. */
  method KotlinLosesBytes(cfg: Config, strong: bool, flushDelayMillis: int, b: byte)
      returns (host: SendHost, reader: Reader, result: UploadResult, ghost dropped: bytes)
    requires cfg.chunkSize >= 2 && cfg.sendMax == 0 && flushDelayMillis > 0
    ensures host.cfg == cfg && host.strong == strong && Taken(reader.log) == [b]
    ensures result == ReaderThrew && dropped == [b]
    ensures host.mail.data == map[] && !host.mail.closed
  {
    host := new SendHost(cfg, strong, Polling.Kotlin, 0, 0, EMPTY_MAILBOX, NEW_RECEIVER, 0, [[]], []);
    reader := new Reader([Event([b], Broken, false, 1)], true);
    assert Taken(reader.log) == [];
    ReachesSelf(cfg, strong, NEW_CHAN);
    BrokenTailIsLost(b, cfg.chunkSize, flushDelayMillis);
    TakenPair(Outcome([b], NoError), Outcome([], Broken));
    ghost var chunks, lost, calls;
    result, chunks, lost, dropped, calls := KotlinUpload(host, flushDelayMillis, reader);
    PlainsMore([], calls[0]);
    assert [] + [calls[0]] == calls;
    assert chunks == [] && lost == [] && dropped == [b];
    NothingStored(cfg, host.mail, chunks);
  }

  /**
   The Kotlin `streamFromStore`: the same machine without a byte limit, so what is proved of the
   receiver holds of it too.
   */
  method KotlinStreamFromStore(host: RecvHost, w: Writer, closeCheckAfterMisses: int, ghost safe: Chan -> bool)
      returns (result: RecvResult, ghost me: Receiver)
    requires host.cfg.recvMax == 0 && host.cfg.closeCheckAfterMisses == KotlinCloseCheckEvery(closeCheckAfterMisses)
    requires !host.cfg.drain && Kept(host.cfg, host.strong, safe) && safe(host.At(NEW_RECEIVER)) && !host.failed
    requires !w.broken && host.log == []
    modifies host, w
    ensures safe(host.At(me)) && w.out == old(w.out) + me.written
    ensures Received(host, w, me, old(host.now), result) && result != RecvOverLimit
    ensures old(host.schedule) == [] ==> result == ContextEnded && host.log == []
  {
    var v := Vars(0, 0, 0, 0, host.pollMin, host.now + host.idle);
    var closeCheckEvery := KotlinCloseCheckEvery(closeCheckAfterMisses);
    me := NEW_RECEIVER;
    while host.schedule != []
      invariant safe(host.At(me)) && AtLoop(host, w, me, v, old(host.now), old(w.out))
      invariant old(host.schedule) == [] ==> host.schedule == [] && host.log == []
      decreases |host.schedule|
    {
      var ended;
      ended, v, me := RecvRound(host, w, v, closeCheckEvery, safe, me, old(host.now), old(w.out));
      if ended.Some? { return ended.value, me; }
    }
    MoveFail(host.cfg, host.strong, safe, host.At(me));
    return ContextEnded, GivenUp(me);
  }
}
