/**
 The sender and receiver loops as written, each against a host that holds the shared mailbox and the
 other half of the channel.  Before every store request the other half makes the next batch of moves
 of an arbitrary schedule; an exhausted schedule is a cancelled context.  `choices` resolves what is
 left open: stale or missing answers, failing requests and whether they took effect, early wake-ups, time.
 */
module Loops {
  import opened Common
  import opened Channel
  import opened ChannelSafety
  import opened Aggregation
  import opened PollLog
  import Polling
  import CloseMarker

  class SendWindow {
    var ackedNextSeq: nat

    constructor ()
      ensures ackedNextSeq == 0
    {
      ackedNextSeq := 0;
    }
  }

  // ---------------------------------------------------------------- the sender's surroundings

  class SendHost {
    const cfg: Config
    const strong: bool
    const client: Polling.Client
    const pollMin: int
    const pollMax: int
    var mail: Mailbox
    var rcv: Receiver
    ghost var missedAt: nat
    /** Has a request of the sender failed? */
    ghost var failed: bool
    /** The GETs of the ACK and the PUTs so far, and the delays slept. */
    ghost var ackReads: nat
    ghost var puts: nat
    ghost var slept: seq<int>
    var schedule: seq<seq<Move>>
    var choices: seq<nat>

    constructor (cfg: Config, strong: bool, client: Polling.Client, pollMin: int, pollMax: int, mail: Mailbox,
                 rcv: Receiver, ghost missedAt: nat, schedule: seq<seq<Move>>, choices: seq<nat>)
      ensures this.cfg == cfg && this.strong == strong && this.schedule == schedule && !failed
      ensures this.client == client && this.pollMin == pollMin && this.pollMax == pollMax
      ensures At(NEW_SENDER) == Chan(mail, NEW_SENDER, rcv, missedAt)
    {
      this.cfg, this.strong, this.client, this.pollMin, this.pollMax := cfg, strong, client, pollMin, pollMax;
      this.mail, this.rcv, this.missedAt := mail, rcv, missedAt;
      this.schedule, this.choices, this.failed := schedule, choices, false;
      ackReads, puts, slept := 0, 0, [];
    }

    /** The channel when the sender's own variables are `me`. */
    ghost function At(me: Sender): Chan reads this { Chan(mail, me, rcv, missedAt) }

    method Choose() returns (n: nat)
      modifies `choices
    {
      n := 0;
      if choices != [] { n, choices := choices[0], choices[1..]; }
    }

    /** The receiver runs for a while. */
    method Interfere(ghost me: Sender, ghost safe: Chan -> bool)
      requires Kept(cfg, strong, safe) && safe(At(me))
      modifies `mail, `rcv, `missedAt, `schedule
      ensures safe(At(me)) && mail.closed == old(mail.closed)
      ensures |schedule| < old(|schedule|) || schedule == old(schedule) == []
    {
      if schedule != [] {
        var batch := schedule[0];
        schedule := schedule[1..];
        for i := 0 to |batch|
          invariant schedule == old(schedule)[1..] && mail.closed == old(mail.closed)
          invariant safe(At(me))
        {
          var m := batch[i];
          if !IsSend(m) && Allowed(strong, mail, rcv.seqNo, m) {
            var next := RecvStep(cfg, rcv, m);
            if next.Some? {
              ghost var before := At(me);
              mail := Deliver(mail, EffectOf(NEW_SENDER, rcv, m));
              missedAt := if m.Miss? then |me.chunks| else missedAt;
              rcv := next.value;
              assert Step(cfg, strong, before, m) == Some(At(me));
            }
          }
        }
      }
    }

    /** GET of the ACK object; None is a failed request. */
    method GetAck() returns (next: Option<nat>)
      modifies `choices, `failed, `ackReads
      ensures next.Some? ==> Allowed(strong, mail, rcv.seqNo, FetchAck(next.value))
      ensures failed == (old(failed) || next.None?) && ackReads == old(ackReads) + 1
    {
      ackReads := ackReads + 1;
      var fails := Choose();
      if fails == 1 {
        failed := true;
        return None;
      }
      if strong { return Some(StoredAck(mail)); }
      var version := Choose();
      return Some(if version < |mail.acks| then mail.acks[version] else 0);
    }

    /** A PUT; a request that fails may have taken effect all the same. */
    method PutObject(effect: Effect) returns (done: bool, ghost landed: bool)
      modifies `choices, `mail, `failed, `puts
      ensures mail == if landed then Deliver(old(mail), effect) else old(mail)
      ensures (done ==> landed) && failed == (old(failed) || !done) && puts == old(puts) + 1
    {
      var choice := Choose();
      done, landed := choice != 1 && choice != 2, choice != 1;
      failed, puts := failed || !done, puts + 1;
      if choice != 1 { mail := Deliver(mail, effect); }
    }

    /** Sleeps for the delay; false when the context is done. */
    method Sleep(delay: int) returns (alive: bool)
      modifies `slept
      ensures slept == old(slept) + [delay] && (alive <==> schedule != [])
    {
      slept := slept + [delay];
      alive := schedule != [];
    }
  }

  // ---------------------------------------------------------------- the sender loop

  ghost function Admitted(s: Sender): Sender
    requires s.pc.Waiting?
  {
    s.(pc := Putting(s.pc.chunk, s.pc.after), waits := s.waits + if s.pc.slow then 1 else 0)
  }

  ghost function Refreshed(s: Sender, next: nat): Sender
    requires s.pc.Waiting?
  {
    s.(pc := Waiting(s.pc.chunk, s.pc.after, true), acked := Max(s.acked, next), ackGets := s.ackGets + 1)
  }

  lemma MoveAdmit(cfg: Config, strong: bool, safe: Chan -> bool, c: Chan)
    requires Kept(cfg, strong, safe) && safe(c) && c.snd.pc.Waiting? && Admits(c.snd.seqNo, c.snd.acked, cfg.sendWindow)
    ensures safe(c.(snd := Admitted(c.snd)))
  {
    assert Step(cfg, strong, c, Admit) == Some(c.(snd := Admitted(c.snd)));
  }

  lemma MoveFetch(cfg: Config, strong: bool, safe: Chan -> bool, c: Chan, next: nat)
    requires Kept(cfg, strong, safe) && safe(c) && c.snd.pc.Waiting?
    requires !Admits(c.snd.seqNo, c.snd.acked, cfg.sendWindow)
    requires Allowed(strong, c.mail, c.rcv.seqNo, FetchAck(next))
    ensures safe(c.(snd := Refreshed(c.snd, next)))
  {
    assert Step(cfg, strong, c, FetchAck(next)) == Some(c.(snd := Refreshed(c.snd, next)));
  }

  /** The sender's variables while it holds a chunk for which the window is not yet known to be open. */
  ghost predicate Holds(me: Sender, seqNo: nat, window: SendWindow)
    reads window
  {
    me.pc.Waiting? && me.seqNo == seqNo && me.acked == window.ackedNextSeq
  }

  /** The delays of the first `n` sleeps of a wait. */
  ghost function Delays(host: SendHost, n: nat): seq<int> {
    seq(n, i requires 0 <= i < n => Polling.DelayAt(host.client, host.pollMin, host.pollMax, i))
  }

  /** What waiting changes of the sender's variables and of its surroundings. */
  twostate predicate Waited(host: SendHost, window: SendWindow, me0: Sender, me: Sender)
    requires me0.pc.Waiting?
    reads host, window
  {
    && me == me0.(pc := me.pc, acked := me.acked, ackGets := me.ackGets, waits := me.waits)
    && me.acked == window.ackedNextSeq >= old(window.ackedNextSeq) && me.ackGets >= me0.ackGets
    && host.mail.closed == old(host.mail.closed) && host.puts == old(host.puts)
    && if me.pc.Waiting? then me.pc.chunk == me0.pc.chunk && me.pc.after == me0.pc.after
       else me.pc == Putting(me0.pc.chunk, me0.pc.after)
  }

  datatype Poll = PollFailed | PollOpen | PollShut

  /** One ACK read of `waitWindow`. */
  method PollOnce(host: SendHost, seqNo: nat, window: SendWindow, ghost safe: Chan -> bool, ghost me0: Sender)
      returns (poll: Poll, ghost me: Sender)
    requires Kept(host.cfg, host.strong, safe) && Holds(me0, seqNo, window) && safe(host.At(me0)) && !host.failed
    requires !Admits(seqNo, window.ackedNextSeq, host.cfg.sendWindow)
    modifies host, window
    ensures safe(host.At(me)) && Waited(host, window, me0, me) && host.slept == old(host.slept)
    ensures host.ackReads == old(host.ackReads) + 1 && (poll == PollFailed <==> host.failed)
    ensures poll == PollOpen <==> me.pc.Putting?
    ensures poll == PollOpen <==> Admits(seqNo, window.ackedNextSeq, host.cfg.sendWindow)
    ensures me.ackGets == me0.ackGets + if poll == PollFailed then 0 else 1
    ensures |host.schedule| < old(|host.schedule|) || host.schedule == []
  {
    me := me0;
    host.Interfere(me, safe);
    var next := host.GetAck();
    if next.None? { return PollFailed, me; }
    MoveFetch(host.cfg, host.strong, safe, host.At(me), next.value);
    me := Refreshed(me, next.value);
    if next.value > window.ackedNextSeq {
      window.ackedNextSeq := next.value;
    }
    if seqNo < (window.ackedNextSeq + host.cfg.sendWindow) % U64 {
      MoveAdmit(host.cfg, host.strong, safe, host.At(me));
      return PollOpen, Admitted(me);
    }
    return PollShut, me;
  }

  /** The loop of `waitWindow`, entered when the cached ACK does not admit the chunk. */
  method PollWindow(host: SendHost, seqNo: nat, window: SendWindow, ghost safe: Chan -> bool, ghost me0: Sender)
      returns (open: bool, ghost me: Sender)
    requires Kept(host.cfg, host.strong, safe) && Holds(me0, seqNo, window) && safe(host.At(me0)) && !host.failed
    requires !Admits(seqNo, window.ackedNextSeq, host.cfg.sendWindow)
    modifies host, window
    ensures safe(host.At(me)) && Waited(host, window, me0, me)
    ensures open <==> me.pc.Putting?
    ensures open <==> Admits(seqNo, window.ackedNextSeq, host.cfg.sendWindow)
    ensures if open then !host.failed && me.ackGets > me0.ackGets else host.failed || host.schedule == []
    ensures host.ackReads == old(host.ackReads) + (me.ackGets - me0.ackGets) + (if host.failed then 1 else 0)
    ensures host.slept == old(host.slept) + Delays(host, me.ackGets - me0.ackGets - if open then 1 else 0)
  {
    me := me0;
    var delay := host.pollMin;
    ghost var n: nat := 0;
    while true
      invariant Waited(host, window, me0, me) && Holds(me, seqNo, window) && safe(host.At(me)) && !host.failed
      invariant !Admits(seqNo, window.ackedNextSeq, host.cfg.sendWindow)
      invariant n == me.ackGets - me0.ackGets && host.ackReads == old(host.ackReads) + n
      invariant host.slept == old(host.slept) + Delays(host, n)
      invariant delay == Polling.DelayAt(host.client, host.pollMin, host.pollMax, n)
      decreases |host.schedule|
    {
      var poll, next := PollOnce(host, seqNo, window, safe, me);
      me := next;
      if poll != PollShut { return poll == PollOpen, me; }
      n := n + 1;
      var alive := host.Sleep(delay);
      if !alive { return false, me; }
      delay := Polling.NextFor(host.client, delay, host.pollMin, host.pollMax);
    }
  }

  /**
   `waitWindow`: returns true once the window admits the chunk; false when a request fails, or when the context
   is done and the newest ACK does not admit it.  It sleeps between ACK reads only, each time for the next delay.
   */
  method WaitWindow(host: SendHost, seqNo: nat, window: SendWindow, ghost safe: Chan -> bool, ghost me0: Sender)
      returns (open: bool, ghost me: Sender)
    requires Kept(host.cfg, host.strong, safe) && Holds(me0, seqNo, window) && safe(host.At(me0)) && !host.failed
    modifies host, window
    ensures safe(host.At(me)) && Waited(host, window, me0, me)
    ensures open <==> me.pc.Putting?
    ensures open <==> Admits(seqNo, window.ackedNextSeq, host.cfg.sendWindow)
    ensures Admits(seqNo, old(window.ackedNextSeq), host.cfg.sendWindow) ==>
              unchanged(window) && unchanged(host) && me.ackGets == me0.ackGets
    ensures if open then !host.failed else host.failed || host.schedule == []
    ensures var gets := me.ackGets - me0.ackGets;
            && host.ackReads == old(host.ackReads) + gets + (if host.failed then 1 else 0)
            && host.slept == old(host.slept) + Delays(host, if open && gets > 0 then gets - 1 else gets)
  {
    if host.cfg.sendWindow == 0 || seqNo < (window.ackedNextSeq + host.cfg.sendWindow) % U64 {
      MoveAdmit(host.cfg, host.strong, safe, host.At(me0));
      return true, Admitted(me0);
    }
    open, me := PollWindow(host, seqNo, window, safe, me0);
  }

  datatype SendResult = SentAll | ReadFailed(error: ReadError) | OverLimit | WindowFailed | PutFailed | CloseFailed

  /** The sender variables between two aggregated reads. */
  ghost predicate Between(me: Sender, seqNo: nat, sent: nat, window: SendWindow)
    reads window
  {
    me.pc.Reading? && me.seqNo == seqNo && me.sent == sent && me.acked == window.ackedNextSeq && me.lost == []
  }

  ghost function Took(s: Sender, chunk: bytes, after: Then): Sender {
    s.(pc := Waiting(chunk, after, false), taken := s.taken + chunk)
  }

  ghost function Refused(s: Sender, chunk: bytes): Sender {
    s.(pc := Closing, taken := s.taken + chunk, lost := chunk)
  }

  ghost function Sent(s: Sender, chunk: bytes, after: Then): Sender {
    s.(pc := AfterRead(after), seqNo := s.seqNo + 1, sent := s.sent + |chunk|, chunks := s.chunks + [chunk])
  }

  ghost function GaveUp(s: Sender): Sender { s.(pc := Finished, lost := s.lost + Pending(s.pc)) }

  lemma MoveRead(cfg: Config, strong: bool, safe: Chan -> bool, c: Chan, chunk: bytes, after: Then)
    requires Kept(cfg, strong, safe) && safe(c) && c.snd.pc.Reading? && |chunk| <= cfg.chunkSize
    ensures chunk == [] ==> safe(c.(snd := c.snd.(pc := AfterRead(after))))
    ensures chunk != [] && Exceeds(c.snd.sent, |chunk|, cfg.sendMax) ==> safe(c.(snd := Refused(c.snd, chunk)))
    ensures chunk != [] && !Exceeds(c.snd.sent, |chunk|, cfg.sendMax) ==> safe(c.(snd := Took(c.snd, chunk, after)))
  {
    assert Step(cfg, strong, c, Read(chunk, after)).Some?;
  }

  lemma MovePut(cfg: Config, strong: bool, safe: Chan -> bool, c: Chan)
    requires Kept(cfg, strong, safe) && safe(c) && c.snd.pc.Putting?
    ensures var sent := Sent(c.snd, c.snd.pc.chunk, c.snd.pc.after);
            safe(Chan(Deliver(c.mail, PutsData(c.snd.seqNo, c.snd.pc.chunk)), sent, c.rcv, c.missedAt))
  {
    assert Step(cfg, strong, c, PutChunk).Some?;
  }

  lemma MoveClose(cfg: Config, strong: bool, safe: Chan -> bool, c: Chan)
    requires Kept(cfg, strong, safe) && safe(c) && c.snd.pc.Closing?
    ensures safe(Chan(Deliver(c.mail, PutsClose), c.snd.(pc := Finished), c.rcv, c.missedAt))
  {
    assert Step(cfg, strong, c, PutClose).Some?;
  }

  lemma MoveGiveUp(cfg: Config, strong: bool, safe: Chan -> bool, c: Chan)
    requires Kept(cfg, strong, safe) && safe(c) && !c.snd.pc.Finished?
    ensures safe(c.(snd := GaveUp(c.snd)))
  {
    assert Step(cfg, strong, c, SendFail).Some?;
  }

  /** `putClose` as the sender's last request. */
  method CloseChannel(host: SendHost, ghost safe: Chan -> bool, ghost me0: Sender)
      returns (done: bool, ghost me: Sender)
    requires Kept(host.cfg, host.strong, safe) && me0.pc.Closing? && safe(host.At(me0))
    modifies host
    ensures safe(host.At(me))
    ensures me == me0.(pc := Finished) && (done ==> host.mail.closed) && host.failed == (old(host.failed) || !done)
    ensures host.puts == old(host.puts) + 1 && host.ackReads == old(host.ackReads)
  {
    me := me0;
    host.Interfere(me, safe);
    ghost var before := host.At(me);
    ghost var landed;
    done, landed := host.PutObject(PutsClose);
    if landed {
      MoveClose(host.cfg, host.strong, safe, before);
    } else {
      MoveGiveUp(host.cfg, host.strong, safe, before);
    }
    assert me0.lost + [] == me0.lost;
    me := me0.(pc := Finished);
  }

  /** The requests of an upload so far, besides failed ones and the close marker: what the machine counts. */
  ghost predicate Counted(host: SendHost, me: Sender, puts0: nat, reads0: nat)
    reads host
  {
    host.puts == puts0 + me.seqNo && host.ackReads == reads0 + me.ackGets
  }

  /** Why a chunk was not PUT, and what that cost. */
  ghost predicate Explains(host: SendHost, me: Sender, puts0: nat, reads0: nat, result: SendResult)
    reads host
  {
    match result
    case OverLimit =>
      && me.lost != [] && Exceeds(me.sent, |me.lost|, host.cfg.sendMax) && (host.mail.closed || host.failed)
      && host.puts == puts0 + me.seqNo + 1 && host.ackReads == reads0 + me.ackGets
    case WindowFailed =>
      && me.lost != [] && !Admits(me.seqNo, me.acked, host.cfg.sendWindow) && (host.failed || host.schedule == [])
      && host.puts == puts0 + me.seqNo && host.ackReads == reads0 + me.ackGets + if host.failed then 1 else 0
    case PutFailed =>
      && host.failed && host.puts == puts0 + me.seqNo + (if me.lost == [] then 0 else 1)
      && host.ackReads == reads0 + me.ackGets
    case _ => false
  }

  /** The part of the sender loop that handles one non-empty read; None means that the chunk was PUT. */
  method SendChunk(host: SendHost, chunk: bytes, after: Then, seqNo: nat, sent: nat, window: SendWindow,
                   ghost safe: Chan -> bool, ghost me0: Sender, ghost puts0: nat, ghost reads0: nat)
      returns (failure: Option<SendResult>, ghost me: Sender)
    requires Kept(host.cfg, host.strong, safe) && Between(me0, seqNo, sent, window) && safe(host.At(me0))
    requires !host.failed
    requires 0 < |chunk| <= host.cfg.chunkSize && Counted(host, me0, puts0, reads0)
    modifies host, window
    ensures safe(host.At(me)) && me.taken == me0.taken + chunk && Pieces(me) == me0.chunks + [chunk]
    ensures failure.Some? ==> me.pc.Finished? && Explains(host, me, puts0, reads0, failure.value)
    ensures failure == Some(OverLimit) <==> Exceeds(sent, |chunk|, host.cfg.sendMax)
    ensures failure != Some(OverLimit) ==> host.mail.closed == old(host.mail.closed)
    ensures failure.None? ==>
              && !host.failed && Counted(host, me, puts0, reads0)
              && me.pc == AfterRead(after) && me.seqNo == seqNo + 1 && me.sent == sent + |chunk|
              && me.acked == window.ackedNextSeq && me.lost == [] && me.chunks == me0.chunks + [chunk]
  {
    MoveRead(host.cfg, host.strong, safe, host.At(me0), chunk, after);
    if Exceeds(sent, |chunk|, host.cfg.sendMax) {
      var _, last := CloseChannel(host, safe, Refused(me0, chunk));
      return Some(OverLimit), last;
    }
    var open, admitted := WaitWindow(host, seqNo, window, safe, Took(me0, chunk, after));
    me := admitted;
    if !open {
      MoveGiveUp(host.cfg, host.strong, safe, host.At(me));
      assert GaveUp(me).lost == me.pc.chunk;
      return Some(WindowFailed), GaveUp(me);
    }
    host.Interfere(me, safe);
    ghost var before := host.At(me);
    var done, landed := host.PutObject(PutsData(seqNo, chunk));
    if landed {
      MovePut(host.cfg, host.strong, safe, before);
      me := Sent(me, chunk, after);
    }
    if !done {
      MoveGiveUp(host.cfg, host.strong, safe, host.At(me));
      assert GaveUp(me).lost == if landed then [] else chunk;
      return Some(PutFailed), GaveUp(me);
    }
    return None, me;
  }

  /** The reader's history since an upload began: all it returned, and the aggregator's calls. */
  ghost predicate History(reader: Reader, log0: seq<Outcome>, calls0: seq<Call>, all: seq<Outcome>, calls: seq<Call>)
    reads reader
  {
    reader.log == log0 + all && reader.calls == calls0 + calls
  }

  /** One aggregated read that continues that history. */
  method AggregateNext(maxBytes: nat, flushDelay: nat, reader: Reader, ghost log0: seq<Outcome>,
                       ghost calls0: seq<Call>,
                       ghost all0: seq<Outcome>, ghost soFar: seq<Call>)
      returns (data: bytes, error: ReadError, ghost all: seq<Outcome>, ghost batch: GoBatch)
    requires maxBytes > 0 && History(reader, log0, calls0, all0, soFar)
    modifies reader
    ensures History(reader, log0, calls0, all, soFar + [Call(maxBytes, flushDelay, batch)])
    ensures data == batch.read.data && error == batch.error && Taken(all) == Taken(all0) + data
    ensures Ends(reader, batch, maxBytes)
    ensures Size(reader.script) < old(Size(reader.script)) || error != NoError
  {
    var read;
    read, error, batch := Aggregate(maxBytes, flushDelay, reader);
    data, all := read.data, all0 + batch.outs;
    TakenConcat(all0, batch.outs);
    Associates(log0, all0, batch.outs);
    Associates(calls0, soFar, [Call(maxBytes, flushDelay, batch)]);
  }

  lemma Associates<T>(a: seq<T>, b: seq<T>, c: seq<T>)
    ensures a + b + c == a + (b + c)
  {
  }

  /**
   How an upload ends, given its last aggregated read.  Unless that one's chunk was not PUT, the error of the
   read decides, and at the end of the stream whether the close marker's request failed.
   */
  ghost predicate Uploaded(host: SendHost, me: Sender, puts0: nat, reads0: nat, last: GoBatch, result: SendResult)
    reads host
  {
    && me.pc.Finished?
    && if result in {OverLimit, WindowFailed, PutFailed} then
         last.read.data != [] && Explains(host, me, puts0, reads0, result)
       else
         && me.lost == [] && (host.mail.closed || host.failed)
         && host.puts == puts0 + me.seqNo + 1 && host.ackReads == reads0 + me.ackGets
         && last.error != NoError
         && result == (if last.error != Eof then ReadFailed(last.error)
                       else if host.failed then CloseFailed else SentAll)
  }

  /** The chunks PUT and the one lost. */
  ghost function Pieces(me: Sender): seq<bytes> { me.chunks + if me.lost == [] then [] else [me.lost] }

  /** The aggregated reads that yielded data. */
  ghost function Datas(calls: seq<Call>): seq<bytes> {
    if calls == [] then []
    else
      var data := calls[|calls| - 1].batch.read.data;
      Datas(calls[..|calls| - 1]) + if data == [] then [] else [data]
  }

  lemma DatasMore(calls: seq<Call>, call: Call)
    ensures Datas(calls + [call]) == Datas(calls) + if call.batch.read.data == [] then [] else [call.batch.read.data]
  {
    assert (calls + [call])[..|calls|] == calls;
  }

  /** What the sender loop does with one aggregated read; None means that the loop goes on. */
  method SendRead(host: SendHost, data: bytes, readErr: ReadError, seqNo: nat, sent: nat, window: SendWindow,
                  ghost safe: Chan -> bool, ghost me0: Sender, ghost puts0: nat, ghost reads0: nat,
                  ghost batch: GoBatch)
      returns (ended: Option<SendResult>, ghost me: Sender)
    requires Kept(host.cfg, host.strong, safe) && safe(host.At(me0)) && !host.failed
    requires Between(me0, seqNo, sent, window) && Counted(host, me0, puts0, reads0) && |data| <= host.cfg.chunkSize
    requires data == batch.read.data && readErr == batch.error
    modifies host, window
    ensures safe(host.At(me)) && me.taken == me0.taken + data
    ensures Pieces(me) == me0.chunks + if data == [] then [] else [data]
    ensures ended.Some? ==> Uploaded(host, me, puts0, reads0, batch, ended.value)
    ensures ended.None? ==>
              && readErr == NoError && !host.failed && Counted(host, me, puts0, reads0)
              && Between(me, if data != [] then seqNo + 1 else seqNo, sent + |data|, window)
    ensures data != [] && Exceeds(sent, |data|, host.cfg.sendMax) <==> ended == Some(OverLimit)
  {
    me, ended := me0, None;
    var after := if readErr == NoError then More else Ended;
    if data != [] {
      ended, me := SendChunk(host, data, after, seqNo, sent, window, safe, me, puts0, reads0);
      if ended.Some? { return; }
    } else {
      MoveRead(host.cfg, host.strong, safe, host.At(me), [], after);
      me := me.(pc := AfterRead(after));
    }
    if readErr != NoError {
      var done;
      done, me := CloseChannel(host, safe, me);
      ended := Some(if readErr != Eof then ReadFailed(readErr) else if done then SentAll else CloseFailed);
    }
  }

  /** One round of the sender loop; None means that the loop goes on, `n` bytes further. */
  method SendRound(host: SendHost, flushDelay: nat, reader: Reader, seqNo: nat, sent: nat, window: SendWindow,
                   ghost safe: Chan -> bool, ghost me0: Sender, ghost log0: seq<Outcome>, ghost calls0: seq<Call>,
                   ghost all0: seq<Outcome>, ghost soFar: seq<Call>, ghost puts0: nat, ghost reads0: nat)
      returns (ended: Option<SendResult>, n: nat, ghost me: Sender, ghost all: seq<Outcome>, ghost batch: GoBatch)
    requires host.cfg.chunkSize > 0 && Kept(host.cfg, host.strong, safe) && safe(host.At(me0)) && !host.failed
    requires Between(me0, seqNo, sent, window) && History(reader, log0, calls0, all0, soFar)
    requires Taken(all0) == me0.taken && Counted(host, me0, puts0, reads0)
    modifies host, reader, window
    ensures History(reader, log0, calls0, all, soFar + [Call(host.cfg.chunkSize, flushDelay, batch)])
    ensures safe(host.At(me)) && Ends(reader, batch, host.cfg.chunkSize) && Taken(all) == me.taken
    ensures Pieces(me) == me0.chunks + if batch.read.data == [] then [] else [batch.read.data]
    ensures ended.Some? ==> Uploaded(host, me, puts0, reads0, batch, ended.value)
    ensures ended.None? ==>
              && batch.error == NoError && n == |batch.read.data| && !host.failed && Counted(host, me, puts0, reads0)
              && Between(me, if n > 0 then seqNo + 1 else seqNo, sent + n, window)
              && Size(reader.script) < old(Size(reader.script))
  {
    var data, readErr;
    data, readErr, all, batch := AggregateNext(host.cfg.chunkSize, flushDelay, reader, log0, calls0, all0, soFar);
    n := |data|;
    ended, me := SendRead(host, data, readErr, seqNo, sent, window, safe, me0, puts0, reads0, batch);
  }

  /** All calls of the aggregator were made with these settings. */
  ghost predicate CalledWith(calls: seq<Call>, maxBytes: int, flushDelay: nat) {
    forall i :: 0 <= i < |calls| ==> calls[i].maxBytes == maxBytes && calls[i].flushDelay == flushDelay
  }

  /**
   `streamToStore`.  Everything the reader yielded is in PUT chunks, in order, one for each aggregated read with
   data, except at most one chunk that was refused by the byte limit or lost to a failed request.  The last
   aggregated read decides how the loop ends.
   */
  method StreamToStore(host: SendHost, flushDelay: nat, reader: Reader, ghost safe: Chan -> bool)
      returns (result: SendResult, ghost me: Sender, ghost all: seq<Outcome>, ghost calls: seq<Call>)
    requires host.cfg.chunkSize > 0 && Kept(host.cfg, host.strong, safe) && safe(host.At(NEW_SENDER)) && !host.failed
    modifies host, reader
    ensures safe(host.At(me)) && History(reader, old(reader.log), old(reader.calls), all, calls)
    ensures Taken(all) == me.taken
    ensures calls != [] && CalledWith(calls, host.cfg.chunkSize, flushDelay) && Pieces(me) == Datas(calls)
    ensures var last := calls[|calls| - 1].batch;
            && Uploaded(host, me, old(host.puts), old(host.ackReads), last, result)
            && Ends(reader, last, host.cfg.chunkSize)
  {
    var window := new SendWindow();
    var seqNo: nat, sent: nat := 0, 0;
    me, all, calls := NEW_SENDER, [], [];
    while true
      invariant Between(me, seqNo, sent, window) && safe(host.At(me)) && !host.failed
      invariant History(reader, old(reader.log), old(reader.calls), all, calls) && Taken(all) == me.taken
      invariant Counted(host, me, old(host.puts), old(host.ackReads))
      invariant CalledWith(calls, host.cfg.chunkSize, flushDelay) && me.chunks == Datas(calls)
      decreases Size(reader.script)
    {
      var ended, n;
      ghost var batch;
      ended, n, me, all, batch :=
        SendRound(host, flushDelay, reader, seqNo, sent, window, safe, me, old(reader.log), old(reader.calls),
                  all, calls, old(host.puts), old(host.ackReads));
      DatasMore(calls, Call(host.cfg.chunkSize, flushDelay, batch));
      calls := calls + [Call(host.cfg.chunkSize, flushDelay, batch)];
      if ended.Some? { return ended.value, me, all, calls; }
      seqNo, sent := if n > 0 then seqNo + 1 else seqNo, sent + n;
    }
  }

  /** The mailbox holds exactly these chunks, none empty and none too long, within the byte limit. */
  ghost predicate Holding(cfg: Config, mail: Mailbox, chunks: seq<bytes>) {
    && (forall n: nat :: n in mail.data <==> n < |chunks|)
    && (forall n: nat :: n in mail.data ==> mail.data[n] == chunks[n] && 0 < |chunks[n]| <= cfg.chunkSize)
    && (cfg.sendMax > 0 && cfg.sendMax + cfg.chunkSize <= I64_MAX ==> |Flatten(chunks)| <= cfg.sendMax)
  }

  lemma AfterUpload(cfg: Config, strong: bool, c: Chan)
    requires Reached(cfg, strong)(c) && c.snd.pc.Finished?
    ensures Holding(cfg, c.mail, c.snd.chunks) && c.snd.seqNo == |c.snd.chunks| && c.snd.sent == |Flatten(c.snd.chunks)|
    ensures c.snd.taken == Flatten(c.snd.chunks) + c.snd.lost && |c.snd.lost| <= cfg.chunkSize
    ensures c.snd.ackGets > 0 && c.snd.lost == [] ==> 0 < cfg.sendWindow < |c.snd.chunks|
  {
    WrittenIsPrefix(cfg, strong, c);
    DataObjects(cfg, strong, c);
    AckTraffic(cfg, strong, c);
    ReachableInv(cfg, strong, c);
    assert c.snd.taken == Flatten(c.snd.chunks) + [] + c.snd.lost;
  }

  /**
   A whole upload, started anywhere in a run of the channel: the mailbox holds exactly the chunks PUT,
   none empty, none over the chunk size, and together with what was lost they are what the reader yielded.
   It succeeds if and only if the last read reported the end of the stream, no chunk was lost and no request
   failed; it then made one PUT a chunk and one for the marker, and read no ACK within the first window.
   */
  method Upload(host: SendHost, flushDelay: nat, reader: Reader)
      returns (result: SendResult, ghost chunks: seq<bytes>, ghost lost: bytes, ghost calls: seq<Call>)
    requires host.cfg.chunkSize > 0 && Reachable(host.cfg, host.strong, host.At(NEW_SENDER)) && !host.failed
    modifies host, reader
    ensures Taken(reader.log) == Taken(old(reader.log)) + (Flatten(chunks) + lost)
    ensures Holding(host.cfg, host.mail, chunks)
    ensures reader.calls == old(reader.calls) + calls && CalledWith(calls, host.cfg.chunkSize, flushDelay)
    ensures chunks + (if lost == [] then [] else [lost]) == Datas(calls)
    ensures lost != [] ==> result in {OverLimit, WindowFailed, PutFailed} && |lost| <= host.cfg.chunkSize
    ensures reader.log != []
    ensures var error := reader.log[|reader.log| - 1].error;
            && (result == SentAll <==> error == Eof && lost == [] && !host.failed)
            && (result.ReadFailed? ==>
                  if result.error == Cancelled then reader.ContextDone() else result.error == error)
    ensures result == OverLimit && |Flatten(chunks)| + |lost| <= I64_MAX ==>
              0 < host.cfg.sendMax < |Flatten(chunks)| + |lost|
    ensures result == WindowFailed ==> lost != [] && (host.failed || host.schedule == [])
    ensures result in {PutFailed, CloseFailed} ==> host.failed
    ensures result in {SentAll, CloseFailed, OverLimit} || result.ReadFailed? ==>
              host.puts == old(host.puts) + |chunks| + 1 && (host.mail.closed || host.failed)
    ensures lost == [] && |chunks| <= host.cfg.sendWindow ==> host.ackReads == old(host.ackReads)
  {
    ReachableIsKept(host.cfg, host.strong);
    ghost var me, all;
    ghost var log := reader.log;
    result, me, all, calls := StreamToStore(host, flushDelay, reader, Reached(host.cfg, host.strong));
    ghost var last := calls[|calls| - 1].batch;
    TakenConcat(log, all);
    chunks, lost := me.chunks, me.lost;
    AfterUpload(host.cfg, host.strong, host.At(me));
    if |Flatten(chunks)| + |lost| <= I64_MAX { ExceedsIff(|Flatten(chunks)|, |lost|, host.cfg.sendMax); }
    assert reader.log[|reader.log| - 1] == last.outs[|last.outs| - 1];
  }

  // ---------------------------------------------------------------- the receiver's surroundings

  datatype GetResult = Found(plain: bytes) | NotFound | GetFailed

  class Writer {
    ghost var out: bytes
    /** Has a write failed? */
    ghost var broken: bool
    var room: seq<nat>

    constructor (room: seq<nat>)
      ensures out == [] && !broken
    {
      this.room, out, broken := room, [], false;
    }

    /** Writes all of `data`, or fails after some of it. */
    method Write(data: bytes) returns (n: nat, done: bool)
      modifies this
      ensures n <= |data| && out == old(out) + data[..n] && (done ==> n == |data|)
      ensures broken == (old(broken) || !done)
    {
      n, done := |data|, true;
      if room != [] && room[0] < |data| { n, done := room[0], false; }
      if room != [] { room := room[1..]; }
      out := out + data[..n];
      broken := broken || !done;
    }
  }

  class RecvHost {
    const cfg: Config
    const strong: bool
    const client: Polling.Client
    const idle: nat
    const pollMin: int
    const pollMax: int
    var mail: Mailbox
    var snd: Sender
    ghost var missedAt: nat
    /** Has a request of the receiver failed? */
    ghost var failed: bool
    /** What the receiver has asked for so far. */
    ghost var log: seq<Asked>
    var now: nat
    var schedule: seq<seq<Move>>
    var choices: seq<nat>

    constructor (cfg: Config, strong: bool, client: Polling.Client, idle: nat, pollMin: int, pollMax: int,
                 mail: Mailbox, snd: Sender, ghost missedAt: nat, schedule: seq<seq<Move>>, choices: seq<nat>)
      ensures this.cfg == cfg && this.strong == strong && this.schedule == schedule && !failed && log == []
      ensures this.client == client && this.idle == idle && this.pollMin == pollMin && this.pollMax == pollMax
      ensures At(NEW_RECEIVER) == Chan(mail, snd, NEW_RECEIVER, missedAt)
    {
      this.cfg, this.strong, this.client := cfg, strong, client;
      this.idle, this.pollMin, this.pollMax := idle, pollMin, pollMax;
      this.mail, this.snd, this.missedAt, this.now := mail, snd, missedAt, 0;
      this.schedule, this.choices, this.failed, this.log := schedule, choices, false, [];
    }

    /** The pace of a receiver that starts at `start`. */
    ghost function PaceFrom(start: nat): Pace { Pace(client, pollMin, pollMax, idle, start) }

    /** The channel when the receiver's own variables are `me`. */
    ghost function At(me: Receiver): Chan reads this { Chan(mail, snd, me, missedAt) }

    method Choose() returns (n: nat)
      modifies `choices
    {
      n := 0;
      if choices != [] { n, choices := choices[0], choices[1..]; }
    }

    /** The sender runs for a while, and time passes. */
    method Interfere(ghost me: Receiver, ghost safe: Chan -> bool)
      requires Kept(cfg, strong, safe) && safe(At(me))
      modifies `mail, `snd, `schedule, `now, `choices
      ensures safe(At(me)) && now >= old(now)
      ensures |schedule| < old(|schedule|) || schedule == old(schedule) == []
    {
      var pause := Choose();
      now := now + pause;
      if schedule != [] {
        var batch := schedule[0];
        schedule := schedule[1..];
        for i := 0 to |batch|
          invariant schedule == old(schedule)[1..] && now >= old(now)
          invariant safe(At(me))
        {
          var m := batch[i];
          if IsSend(m) && Allowed(strong, mail, 0, m) {
            var next := SendStep(cfg, snd, m);
            if next.Some? {
              ghost var before := At(me);
              mail := Deliver(mail, EffectOf(snd, NEW_RECEIVER, m));
              snd := next.value;
              assert Step(cfg, strong, before, m) == Some(At(me));
            }
          }
        }
      }
    }

    /** GET of one data object; a weak store may miss it, and in a context that is done it fails. */
    method GetObject(n: nat) returns (result: GetResult)
      modifies `choices, `failed, `log
      ensures result.Found? ==> Allowed(strong, mail, n, Hit(result.plain))
      ensures result.NotFound? ==> Allowed(strong, mail, n, Miss)
      ensures schedule == [] ==> result.GetFailed?
      ensures failed == (old(failed) || result.GetFailed?)
      ensures log == if result.GetFailed? then old(log) else old(log) + [Got(result.Found?, now)]
    {
      var choice := Choose();
      if choice == 1 || schedule == [] {
        failed := true;
        return GetFailed;
      }
      result := if n in mail.data && (strong || choice != 2) then Found(mail.data[n]) else NotFound;
      log := log + [Got(result.Found?, now)];
    }

    /** HEAD of the close marker; None is a failed request. */
    method CloseExists() returns (present: Option<bool>)
      modifies `choices, `failed, `log
      ensures present.Some? ==> Allowed(strong, mail, 0, Head(present.value))
      ensures failed == (old(failed) || present.None?)
      ensures log == if present.None? then old(log) else old(log) + [Headed]
    {
      var choice := Choose();
      if choice == 1 {
        failed := true;
        return None;
      }
      log := log + [Headed];
      return Some(mail.closed && (strong || choice != 2));
    }

    /** A PUT; a request that fails may have taken effect all the same. */
    method PutAck(next: nat) returns (done: bool, ghost landed: bool)
      modifies `choices, `mail, `failed, `log
      ensures mail == if landed then Deliver(old(mail), PutsAck(next)) else old(mail)
      ensures (done ==> landed) && failed == (old(failed) || !done)
      ensures log == if done then old(log) + [Acked(now)] else old(log)
    {
      var choice := Choose();
      done, landed := choice != 1 && choice != 2, choice != 1;
      failed := failed || !done;
      if choice != 1 { mail := Deliver(mail, PutsAck(next)); }
      if done { log := log + [Acked(now)]; }
    }

    /** Sleeps for the delay unless woken; false when the context is done. */
    method Sleep(delay: int) returns (alive: bool, woke: bool)
      modifies `choices, `now, `log
      ensures now >= old(now) && (!woke ==> now >= old(now) + delay)
      ensures (alive <==> schedule != []) && log == old(log) + [Paused(old(now), delay, woke)]
    {
      var choice := Choose();
      woke := choice == 1;
      log := log + [Paused(now, delay, woke)];
      if !woke { now := now + Max(delay, 0); }
      alive := schedule != [];
    }
  }

  // ---------------------------------------------------------------- the receiver loop

  datatype RecvResult = PeerEnded | RequestFailed | RecvOverLimit | WriteFailed | AckFailed | IdleTimeout | ContextEnded

  /** The receiver variables at the top of the loop. */
  ghost predicate Polls(me: Receiver, seqNo: nat, lastAck: nat, received: nat, misses: nat) {
    && me.pc.Getting? && !me.sawClose
    && me.seqNo == seqNo && me.lastAck == lastAck && me.received == received && me.misses == misses
  }

  ghost function GivenUp(r: Receiver): Receiver { r.(pc := Stopped(Failed)) }

  ghost function Wrote(cfg: Config, r: Receiver, plain: bytes): Receiver {
    r.(pc := if r.seqNo + 1 - r.lastAck >= AckInterval(cfg.recvWindow) then Acking else Getting,
       seqNo := r.seqNo + 1, received := r.received + |plain|, written := r.written + plain,
       misses := 0, gap := 0, heads := 0)
  }

  ghost function Missed(cfg: Config, r: Receiver): Receiver {
    if r.misses + 1 >= CloseCheckEvery(cfg) then r.(pc := Heading, misses := 0, gap := r.gap + 1)
    else r.(misses := r.misses + 1, gap := r.gap + 1)
  }

  lemma MoveFail(cfg: Config, strong: bool, safe: Chan -> bool, c: Chan)
    requires Kept(cfg, strong, safe) && safe(c) && !c.rcv.pc.Stopped?
    ensures safe(c.(rcv := GivenUp(c.rcv)))
  {
    assert Step(cfg, strong, c, RecvFail).Some?;
  }

  lemma MoveHit(cfg: Config, strong: bool, safe: Chan -> bool, c: Chan, plain: bytes)
    requires Kept(cfg, strong, safe) && safe(c) && c.rcv.pc.Getting? && Allowed(strong, c.mail, c.rcv.seqNo, Hit(plain))
    ensures var over := Exceeds(c.rcv.received, |plain|, cfg.recvMax);
            safe(c.(rcv := if over then GivenUp(c.rcv) else c.rcv.(pc := Writing(plain))))
  {
    assert Step(cfg, strong, c, Hit(plain)).Some?;
  }

  lemma MoveWrite(cfg: Config, strong: bool, safe: Chan -> bool, c: Chan, n: nat)
    requires Kept(cfg, strong, safe) && safe(c) && c.rcv.pc.Writing? && n <= |c.rcv.pc.plain|
    ensures safe(c.(rcv := Wrote(cfg, c.rcv, c.rcv.pc.plain)))
    ensures safe(c.(rcv := c.rcv.(pc := Stopped(Failed), written := c.rcv.written + c.rcv.pc.plain[..n])))
  {
    assert Step(cfg, strong, c, Write).Some? && Step(cfg, strong, c, WriteFail(n)).Some?;
  }

  lemma MoveAck(cfg: Config, strong: bool, safe: Chan -> bool, c: Chan)
    requires Kept(cfg, strong, safe) && safe(c) && c.rcv.pc.Acking?
    ensures var acked := c.rcv.(pc := Getting, lastAck := c.rcv.seqNo);
            safe(Chan(Deliver(c.mail, PutsAck(c.rcv.seqNo)), c.snd, acked, c.missedAt))
  {
    assert Step(cfg, strong, c, Move.PutAck).Some?;
  }

  lemma MoveMiss(cfg: Config, strong: bool, safe: Chan -> bool, c: Chan)
    requires Kept(cfg, strong, safe) && safe(c) && c.rcv.pc.Getting? && !c.rcv.sawClose
    requires Allowed(strong, c.mail, c.rcv.seqNo, Miss)
    ensures safe(Chan(c.mail, c.snd, Missed(cfg, c.rcv), |c.snd.chunks|))
  {
    assert Step(cfg, strong, c, Miss).Some?;
  }

  lemma MoveHead(cfg: Config, strong: bool, safe: Chan -> bool, c: Chan, present: bool)
    requires Kept(cfg, strong, safe) && safe(c) && c.rcv.pc.Heading? && !cfg.drain
    requires Allowed(strong, c.mail, c.rcv.seqNo, Head(present))
    ensures safe(c.(rcv := c.rcv.(pc := if present then Stopped(PeerClosed) else Getting, heads := c.rcv.heads + 1)))
  {
    assert Step(cfg, strong, c, Head(present)).Some?;
  }

  /** Why the receiver that started at `start` ended. */
  ghost predicate Accounts(host: RecvHost, w: Writer, me: Receiver, start: nat, result: RecvResult)
    reads host, w
  {
    match result
    case PeerEnded => !host.failed && !w.broken
    case RequestFailed => host.failed
    case AckFailed => host.failed
    case RecvOverLimit =>
      && !host.failed && !w.broken
      && me.seqNo in host.mail.data && Exceeds(me.received, |host.mail.data[me.seqNo]|, host.cfg.recvMax)
    case WriteFailed => w.broken
    case IdleTimeout => !host.failed && AfterMiss(host.log) && host.now > Served(host.log, start) + host.idle
    case ContextEnded => !host.failed && host.schedule == []
  }

  /** The receiver's variables that time it, at the top of the loop. */
  ghost predicate Timed(host: RecvHost, start: nat, delay: int, deadline: int)
    reads host
  {
    && Orderly(host.PaceFrom(start), host.log) && AtTop(host.log)
    && deadline == Served(host.log, start) + host.idle
    && delay == DelayNow(host.PaceFrom(start), Sleeps(host.log))
  }

  /** The sleep at the end of a round without data, and the delay after it; false when the context is done. */
  method Rest(host: RecvHost, delay: int, ghost deadline: int, ghost pace: Pace) returns (alive: bool, next: int)
    requires pace == host.PaceFrom(pace.start) && Orderly(pace, host.log) && AfterMiss(host.log)
    requires deadline == Served(host.log, pace.start) + host.idle && host.now <= deadline
    requires delay == DelayNow(pace, Sleeps(host.log))
    modifies host`choices, host`now, host`log
    ensures Timed(host, pace.start, next, deadline) && (alive <==> host.schedule != [])
  {
    NextSleep(pace, host.log, host.now, delay);
    var woke;
    alive, woke := host.Sleep(delay);
    next := if woke then host.pollMin else Polling.NextFor(host.client, delay, host.pollMin, host.pollMax);
  }

  /** The part of the receiver loop that handles one data object; None means that it was delivered. */
  method Accept(host: RecvHost, w: Writer, plain: bytes, seqNo: nat, lastAck0: nat, received: nat,
                ghost safe: Chan -> bool, ghost me0: Receiver, ghost start: bytes, ghost pace: Pace)
      returns (failure: Option<RecvResult>, lastAck: nat, ghost me: Receiver)
    requires Kept(host.cfg, host.strong, safe) && safe(host.At(me0))
    requires Polls(me0, seqNo, lastAck0, received, me0.misses) && lastAck0 <= seqNo
    requires Allowed(host.strong, host.mail, seqNo, Hit(plain)) && w.out == start + me0.written
    requires !host.failed && !w.broken && Orderly(pace, host.log) && host.log != []
    requires host.log[|host.log| - 1] == Got(true, host.now)
    modifies host, w
    ensures safe(host.At(me)) && host.now >= old(host.now) && |host.schedule| <= old(|host.schedule|)
    ensures w.out == start + me.written && me0.written <= me.written <= me0.written + plain
    ensures failure.Some? ==> me.pc == Stopped(Failed) && failure.value in {RecvOverLimit, WriteFailed, AckFailed}
    ensures failure.Some? ==> Accounts(host, w, me, pace.start, failure.value)
    ensures Orderly(pace, host.log)
    ensures failure.None? ==>
              && AtTop(host.log) && Served(host.log, pace.start) == host.now && Sleeps(host.log) == 0
              && !host.failed && !w.broken && me.written == me0.written + plain
              && Polls(me, seqNo + 1, lastAck, received + |plain|, 0) && lastAck <= seqNo + 1
  {
    MoveHit(host.cfg, host.strong, safe, host.At(me0), plain);
    lastAck := lastAck0;
    if Exceeds(received, |plain|, host.cfg.recvMax) { return Some(RecvOverLimit), lastAck, GivenUp(me0); }
    me := me0.(pc := Writing(plain));
    var n, done := w.Write(plain);
    assert start + (me0.written + plain[..n]) == start + me0.written + plain[..n];
    MoveWrite(host.cfg, host.strong, safe, host.At(me), n);
    if !done { return Some(WriteFailed), lastAck, me.(pc := Stopped(Failed), written := me.written + plain[..n]); }
    assert plain[..n] == plain;
    me := Wrote(host.cfg, me, plain);
    if seqNo + 1 - lastAck >= AckInterval(host.cfg.recvWindow) {
      host.Interfere(me, safe);
      ghost var before := host.At(me);
      ghost var landed;
      OneMore(pace, host.log, Acked(host.now));
      done, landed := host.PutAck(seqNo + 1);
      if landed {
        MoveAck(host.cfg, host.strong, safe, before);
        me := me.(pc := Getting, lastAck := seqNo + 1);
      }
      if !done {
        MoveFail(host.cfg, host.strong, safe, host.At(me));
        return Some(AckFailed), lastAck, GivenUp(me);
      }
      lastAck := seqNo + 1;
    }
    return None, lastAck, me;
  }

  /** The part of the receiver loop that handles one data miss; None means that the loop goes on to sleep. */
  method CountMiss(host: RecvHost, misses0: nat, closeCheckEvery: nat, deadline: nat, ghost safe: Chan -> bool,
                   ghost me0: Receiver, ghost pace: Pace)
      returns (ending: Option<RecvResult>, misses: nat, ghost me: Receiver)
    requires !host.cfg.drain && Kept(host.cfg, host.strong, safe) && safe(host.At(me0))
    requires Polls(me0, me0.seqNo, me0.lastAck, me0.received, misses0) && closeCheckEvery == CloseCheckEvery(host.cfg)
    requires Allowed(host.strong, host.mail, me0.seqNo, Miss) && !host.failed
    requires Orderly(pace, host.log) && host.log != [] && host.log[|host.log| - 1] == Got(false, host.now)
    modifies host
    ensures safe(host.At(me)) && host.now >= old(host.now) && |host.schedule| <= old(|host.schedule|)
    ensures me.written == me0.written && (host.failed <==> ending == Some(RequestFailed))
    ensures Orderly(pace, host.log) && AfterMiss(host.log) && Sleeps(host.log) == Sleeps(old(host.log))
    ensures Served(host.log, pace.start) == Served(old(host.log), pace.start)
    ensures ending.None? ==>
              host.now <= deadline && Polls(me, me0.seqNo, me0.lastAck, me0.received, misses)
    ensures ending.Some? ==>
              match ending.value
              case PeerEnded => me.pc == Stopped(PeerClosed)
              case RequestFailed => me.pc == Stopped(Failed)
              case IdleTimeout => me.pc == Stopped(Failed) && host.now > deadline
              case _ => false
    ensures misses == if misses0 + 1 >= closeCheckEvery then 0 else misses0 + 1
  {
    MoveMiss(host.cfg, host.strong, safe, host.At(me0));
    host.missedAt := |host.snd.chunks|;
    me := Missed(host.cfg, me0);
    misses := misses0 + 1;
    if misses >= closeCheckEvery {
      misses := 0;
      host.Interfere(me, safe);
      OneMore(pace, host.log, Headed);
      var closed := host.CloseExists();
      if closed.None? {
        MoveFail(host.cfg, host.strong, safe, host.At(me));
        return Some(RequestFailed), misses, GivenUp(me);
      }
      MoveHead(host.cfg, host.strong, safe, host.At(me), closed.value);
      me := me.(pc := if closed.value then Stopped(PeerClosed) else Getting, heads := me.heads + 1);
      if closed.value { return Some(PeerEnded), misses, me; }
    }
    if host.now > deadline {
      MoveFail(host.cfg, host.strong, safe, host.At(me));
      return Some(IdleTimeout), misses, GivenUp(me);
    }
    return None, misses, me;
  }

  /** What a receiver promises besides what it writes: it asks in order and in time, and ends for a reason. */
  ghost predicate Received(host: RecvHost, w: Writer, me: Receiver, start: nat, result: RecvResult)
    reads host, w
  {
    && me.pc.Stopped? && (result == PeerEnded <==> me.pc == Stopped(PeerClosed))
    && Orderly(host.PaceFrom(start), host.log) && Accounts(host, w, me, start, result)
  }

  /** The variables of the receiver loop. */
  datatype Vars = Vars(seqNo: nat, lastAck: nat, received: nat, misses: nat, delay: int, deadline: int)

  /** The receiver at the top of its loop. */
  ghost predicate AtLoop(host: RecvHost, w: Writer, me: Receiver, v: Vars, start: nat, out0: bytes)
    reads host, w
  {
    && Polls(me, v.seqNo, v.lastAck, v.received, v.misses) && v.lastAck <= v.seqNo
    && !host.failed && !w.broken && w.out == out0 + me.written
    && Timed(host, start, v.delay, v.deadline)
  }

  /** One round of the receiver loop; None means that the loop goes on with the new values of its variables. */
  method RecvRound(host: RecvHost, w: Writer, v: Vars, closeCheckEvery: nat, ghost safe: Chan -> bool,
                   ghost me0: Receiver, ghost start: nat, ghost out0: bytes)
      returns (ended: Option<RecvResult>, next: Vars, ghost me: Receiver)
    requires !host.cfg.drain && Kept(host.cfg, host.strong, safe) && safe(host.At(me0))
    requires closeCheckEvery == CloseCheckEvery(host.cfg) && AtLoop(host, w, me0, v, start, out0)
    modifies host, w
    ensures safe(host.At(me)) && w.out == out0 + me.written
    ensures ended.None? ==> AtLoop(host, w, me, next, start, out0) && |host.schedule| < old(|host.schedule|)
    ensures ended.Some? ==> Received(host, w, me, start, ended.value)
  {
    ghost var pace := host.PaceFrom(start);
    next, me, ended := v, me0, None;
    host.Interfere(me, safe);
    NextGet(pace, host.log, host.now);
    var got := host.GetObject(v.seqNo);
    if got.GetFailed? {
      MoveFail(host.cfg, host.strong, safe, host.At(me));
      return Some(RequestFailed), next, GivenUp(me);
    }
    if got.Found? {
      var ack;
      ended, ack, me := Accept(host, w, got.plain, v.seqNo, v.lastAck, v.received, safe, me, out0, pace);
      next := Vars(v.seqNo + 1, ack, v.received + |got.plain|, 0, host.pollMin, host.now + host.idle);
      return;
    }
    var misses;
    ended, misses, me := CountMiss(host, v.misses, closeCheckEvery, v.deadline, safe, me, pace);
    if ended.Some? { return; }
    var alive, delay := Rest(host, v.delay, v.deadline, pace);
    next := v.(misses := misses, delay := delay);
    if !alive {
      MoveFail(host.cfg, host.strong, safe, host.At(me));
      return Some(ContextEnded), next, GivenUp(me);
    }
  }

  /**
   `streamFromStore`.  What it writes is what the channel machine says was written; it ends cleanly exactly
   when the machine saw the close marker, and times out exactly when a round without data ends more than the
   idle time after data last came.
   */
  method StreamFromStore(host: RecvHost, w: Writer, ghost safe: Chan -> bool)
      returns (result: RecvResult, ghost me: Receiver)
    requires !host.cfg.drain && Kept(host.cfg, host.strong, safe) && safe(host.At(NEW_RECEIVER)) && !host.failed
    requires !w.broken && host.log == []
    modifies host, w
    ensures safe(host.At(me)) && w.out == old(w.out) + me.written
    ensures Received(host, w, me, old(host.now), result)
  {
    var v := Vars(0, 0, 0, 0, host.pollMin, host.now + host.idle);
    var closeCheckEvery := host.cfg.closeCheckAfterMisses;
    if closeCheckEvery <= 0 { closeCheckEvery := DEFAULT_CLOSE_CHECK; }
    me := NEW_RECEIVER;
    while true
      invariant safe(host.At(me)) && AtLoop(host, w, me, v, old(host.now), old(w.out))
      decreases |host.schedule|
    {
      var ended;
      ended, v, me := RecvRound(host, w, v, closeCheckEvery, safe, me, old(host.now), old(w.out));
      if ended.Some? { return ended.value, me; }
    }
  }

  /**
   A whole download, started anywhere in a run of the channel: the output is a prefix of what the sender
   took, and after a clean end over a strong store it is all that was PUT iff no PUT followed the last miss.
   */
  method Download(host: RecvHost, w: Writer) returns (result: RecvResult, ghost written: bytes)
    requires !host.cfg.drain && Reachable(host.cfg, host.strong, host.At(NEW_RECEIVER)) && !host.failed && !w.broken
    requires host.log == []
    modifies host, w
    ensures w.out == old(w.out) + written && written <= host.snd.taken
    ensures result == PeerEnded && host.strong ==>
              (written == Flatten(host.snd.chunks) <==> host.missedAt == |host.snd.chunks|)
    ensures result == IdleTimeout ==> host.now > Served(host.log, old(host.now)) + host.idle
    ensures Orderly(host.PaceFrom(old(host.now)), host.log)
  {
    ReachableIsKept(host.cfg, host.strong);
    ghost var me;
    result, me := StreamFromStore(host, w, Reached(host.cfg, host.strong));
    written := me.written;
    WrittenIsPrefix(host.cfg, host.strong, host.At(me));
    if result == PeerEnded && host.strong { CloseMarker.DeliveredIff(host.cfg, host.At(me)); }
  }
}
