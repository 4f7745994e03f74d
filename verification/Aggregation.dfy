/**
 Size-or-deadline aggregation over an arbitrary reader.  A script says how each read behaves: how much
 it yields, with which error, and whether the context is cancelled before it.  The reader keeps a
 ghost log of what every read returned, so that nothing consumed can go missing.
 */
module Aggregation {
  import opened Common

  datatype ReadError = NoError | Eof | Timeout | Broken | Cancelled

  /** `offered` may exceed the buffer; the rest, and then the error, stay for later reads. */
  datatype Event = Event(offered: bytes, error: ReadError, cancelled: bool, available: int)

  /** What one read returned. */
  datatype Outcome = Outcome(data: bytes, error: ReadError)

  ghost function Taken(log: seq<Outcome>): bytes {
    if log == [] then [] else Taken(log[..|log| - 1]) + log[|log| - 1].data
  }

  lemma TakenAppend(log: seq<Outcome>, o: Outcome)
    ensures Taken(log + [o]) == Taken(log) + o.data
  {
    assert (log + [o])[..|log|] == log;
  }

  lemma {:induction false} TakenConcat(a: seq<Outcome>, b: seq<Outcome>)
    ensures Taken(a + b) == Taken(a) + Taken(b)
  {
    if b == [] {
      assert a + b == a;
    } else {
      var n := |b| - 1;
      TakenConcat(a, b[..n]);
      assert (a + b)[..|a + b| - 1] == a + b[..n];
    }
  }

  function Size(script: seq<Event>): nat {
    if script == [] then 0 else 1 + |script[0].offered| + Size(script[1..])
  }

  /** One read into a buffer of `max` bytes: what it yields, its error, and the script left over. */
  function ReadOnce(script: seq<Event>, max: nat): (r: (bytes, ReadError, seq<Event>))
    requires max > 0
    ensures |r.0| <= max && r.1 != Cancelled
    ensures Size(r.2) < Size(script) || (script == [] && r == ([], Broken, []))
  {
    if script == [] then ([], Broken, [])
    else
      var e := script[0];
      var n := Min(|e.offered|, max);
      if n < |e.offered| then (e.offered[..n], NoError, [e.(offered := e.offered[n..])] + script[1..])
      else (e.offered, if e.error == Cancelled then Broken else e.error, script[1..])
  }

  /** Is the context done before the next read? */
  predicate IsDone(script: seq<Event>) { script != [] && script[0].cancelled }

  datatype FlushReason = NoFlush | FlushSize | FlushDeadline | FlushEof | FlushError

  datatype AggregatedRead = AggregatedRead(data: bytes, reason: FlushReason, socketReads: nat)

  /** An aggregated read with the error it returns, what each read returned, and the script left over. */
  datatype GoBatch = GoBatch(read: AggregatedRead, error: ReadError, outs: seq<Outcome>, rest: seq<Event>)

  /** A call of the aggregator. */
  datatype Call = Call(maxBytes: int, flushDelay: nat, batch: GoBatch)

  datatype KotlinRead = EndOfStream | Plain(plain: bytes) | Threw

  /** An aggregated read: its result, what each read of the stream returned, and the script left over. */
  datatype Batch = Batch(read: KotlinRead, outs: seq<Outcome>, rest: seq<Event>)

  /** A call of `readAggregated`. */
  datatype KotlinCall = KotlinCall(size: nat, flushDelayMillis: int, batch: Batch)

  class Reader {
    var script: seq<Event>
    const deadlines: bool
    ghost var log: seq<Outcome>
    /** The calls so far of the aggregator, and of its Kotlin counterpart. */
    ghost var calls: seq<Call>
    ghost var kotlinCalls: seq<KotlinCall>

    constructor (script: seq<Event>, deadlines: bool)
      ensures this.script == script && this.deadlines == deadlines && log == [] && calls == []
      ensures kotlinCalls == []
    {
      this.script, this.deadlines, log, calls, kotlinCalls := script, deadlines, [], [], [];
    }

    /** `io.Reader.Read` into the first `max` bytes of the buffer. */
    method Read(buf: array<byte>, max: nat) returns (n: nat, error: ReadError)
      requires 0 < max <= buf.Length
      modifies `script, `log, buf
      ensures n <= max && log == old(log) + [Outcome(buf[..n], error)]
      ensures ReadOnce(old(script), max) == (buf[..n], error, script)
    {
      if script == [] {
        n, error := 0, Broken;
      } else {
        var e := script[0];
        n := Min(|e.offered|, max);
        forall i | 0 <= i < n { buf[i] := e.offered[i]; }
        assert buf[..n] == e.offered[..n] && e.offered[..|e.offered|] == e.offered;
        if n < |e.offered| {
          error := NoError;
          script := [e.(offered := e.offered[n..])] + script[1..];
        } else {
          error := if e.error == Cancelled then Broken else e.error;
          script := script[1..];
        }
      }
      log := log + [Outcome(buf[..n], error)];
    }

    predicate ContextDone() reads this { IsDone(script) }
  }

  function ReasonForError(error: ReadError): FlushReason {
    if error == Eof then FlushEof else FlushError
  }

  function EffectiveMax(maxBytes: int): (max: nat)
    ensures max > 0 && (maxBytes > 0 ==> max == maxBytes) && (maxBytes <= 0 ==> max == 65_536)
  {
    if maxBytes <= 0 then 64 * 1024 else maxBytes
  }

  /** The data is that of all reads, and all of them but the last went well. */
  ghost predicate Conserves(outs: seq<Outcome>, max: nat, read: AggregatedRead) {
    && outs != []
    && read.data == Taken(outs) && |read.data| <= max
    && (forall i :: 0 <= i < |outs| - 1 ==> outs[i].error == NoError)
    && (|outs| > 1 ==> outs[0].data != [])
    && (read.data == [] ==> |outs| == 1)
  }

  /** The error is the last read's, except for a cancelled context and for the flush deadline. */
  ghost predicate Reports(last: ReadError, count: nat, max: nat, read: AggregatedRead, error: ReadError) {
    match read.reason
    case NoFlush => read.data == [] && error == last && read.socketReads == 0
    case FlushSize => |read.data| == max && error == last && read.socketReads == count
    case FlushDeadline =>
      && 0 < |read.data| < max && error == NoError && read.socketReads == count
      && if count == 1 then last == NoError else last == Timeout
    case FlushEof => read.data != [] && error == last == Eof && read.socketReads == count
    case FlushError =>
      && read.data != []
      && if error == Cancelled then last == NoError && read.socketReads == 0
         else error == last && error != NoError && error != Eof && read.socketReads == count
  }

  /** The loop of `Aggregator.Read` once `got` has been read, in `reads` reads that went well. */
  function FillFrom(script: seq<Event>, got: bytes, max: nat, socketReads: nat): GoBatch
    decreases Size(script)
  {
    if |got| >= max then GoBatch(AggregatedRead(got, FlushSize, socketReads), NoError, [], script)
    else if IsDone(script) then GoBatch(AggregatedRead(got, FlushError, 0), Cancelled, [], script)
    else
      var (data, error, rest) := ReadOnce(script, max - |got|);
      var outs := [Outcome(data, error)];
      var all := got + data;
      if |all| >= max then GoBatch(AggregatedRead(all, FlushSize, socketReads + 1), error, outs, rest)
      else if error == Timeout then GoBatch(AggregatedRead(all, FlushDeadline, socketReads + 1), NoError, outs, rest)
      else if error != NoError then
        GoBatch(AggregatedRead(all, ReasonForError(error), socketReads + 1), error, outs, rest)
      else
        var next := FillFrom(rest, all, max, socketReads + 1);
        next.(outs := outs + next.outs)
  }

  /** Does the aggregator wait for more? */
  predicate Waits(flushDelay: nat, deadlines: bool) { flushDelay != 0 && deadlines }

  /** What `Aggregator.Read` makes of a script. */
  function GoAggregate(script: seq<Event>, deadlines: bool, maxBytes: int, flushDelay: nat): GoBatch {
    var max := EffectiveMax(maxBytes);
    var (data, error, rest) := ReadOnce(script, max);
    var outs := [Outcome(data, error)];
    if data == [] then GoBatch(AggregatedRead([], NoFlush, 0), error, outs, rest)
    else if error != NoError then GoBatch(AggregatedRead(data, ReasonForError(error), 1), error, outs, rest)
    else if |data| >= max then GoBatch(AggregatedRead(data, FlushSize, 1), NoError, outs, rest)
    else if !Waits(flushDelay, deadlines) then GoBatch(AggregatedRead(data, FlushDeadline, 1), NoError, outs, rest)
    else
      var next := FillFrom(rest, data, max, 1);
      next.(outs := outs + next.outs)
  }

  // ---------------------------------------------------------------- what an aggregated read promises

  ghost predicate WentWell(outs: seq<Outcome>) {
    forall i :: 0 <= i < |outs| ==> outs[i].error == NoError
  }

  lemma WentWellFirst(o: Outcome, outs: seq<Outcome>)
    ensures WentWell([o] + outs) <==> o.error == NoError && WentWell(outs)
  {
    assert forall i :: 0 <= i < |outs| ==> ([o] + outs)[i + 1] == outs[i];
    assert ([o] + outs)[0] == o;
  }

  lemma TakenOne(o: Outcome)
    ensures Taken([o]) == o.data
  {
    assert [o][..0] == [];
  }

  lemma TakenFirst(o: Outcome, outs: seq<Outcome>)
    ensures Taken([o] + outs) == o.data + Taken(outs)
  {
    TakenConcat([o], outs);
    TakenOne(o);
  }

  /** What the loop adds to `got`, and why it stops. */
  ghost predicate Fills(t: GoBatch, script: seq<Event>, got: bytes, max: nat, socketReads: nat) {
    && t.read.data == got + Taken(t.outs) && |t.read.data| <= max
    && (forall i :: 0 <= i < |t.outs| - 1 ==> t.outs[i].error == NoError)
    && (t.error == Cancelled <==> WentWell(t.outs) && |t.read.data| < max)
    && (t.error == Cancelled ==> IsDone(t.rest) && t.read.reason == FlushError && t.read.socketReads == 0)
    && (t.error != Cancelled ==>
          && t.read.socketReads == socketReads + |t.outs| && t.outs != []
          && Stops(t.outs[|t.outs| - 1].error, |t.read.data| == max, t.read.reason, t.error))
    && Size(t.rest) <= Size(script)
  }

  /** The reason and the error that the last read's error makes. */
  predicate Stops(last: ReadError, full: bool, reason: FlushReason, error: ReadError) {
    if full then reason == FlushSize && error == last
    else
      match last
      case Timeout => reason == FlushDeadline && error == NoError
      case Eof => reason == FlushEof && error == Eof
      case Broken => reason == FlushError && error == Broken
      case _ => false
  }

  lemma FillsAfter(t: GoBatch, script: seq<Event>, rest: seq<Event>, got: bytes, data: bytes, max: nat,
                   socketReads: nat)
    requires Fills(t, rest, got + data, max, socketReads + 1) && Size(rest) <= Size(script)
    ensures Fills(t.(outs := [Outcome(data, NoError)] + t.outs), script, got, max, socketReads)
  {
    TakenFirst(Outcome(data, NoError), t.outs);
    assert got + data + Taken(t.outs) == got + (data + Taken(t.outs));
  }

  lemma {:induction false} FillFromFacts(script: seq<Event>, got: bytes, max: nat, socketReads: nat)
    requires 0 < |got| < max
    ensures Fills(FillFrom(script, got, max, socketReads), script, got, max, socketReads)
    decreases Size(script)
  {
    if !IsDone(script) {
      var (data, error, rest) := ReadOnce(script, max - |got|);
      TakenOne(Outcome(data, error));
      if |got + data| < max && error == NoError {
        FillFromFacts(rest, got + data, max, socketReads + 1);
        FillsAfter(FillFrom(rest, got + data, max, socketReads + 1), script, rest, got, data, max, socketReads);
      }
    }
  }

  /** Between two reads the loop stops without another one if and only if the context is done. */
  lemma StopsForContextIff(script: seq<Event>, got: bytes, max: nat, socketReads: nat)
    requires 0 < |got| < max
    ensures FillFrom(script, got, max, socketReads).outs == [] <==> IsDone(script)
    ensures IsDone(script) ==> FillFrom(script, got, max, socketReads).error == Cancelled
  {
  }

  /** Did the first read leave a reason to read on: some data, no error, and room? */
  predicate WantsMore(first: Outcome, max: nat) { first.data != [] && first.error == NoError && |first.data| < max }

  /** `Aggregator.Read` yields exactly what it consumed, in order, with the error that ended it. */
  lemma GoAggregateFacts(script: seq<Event>, deadlines: bool, maxBytes: int, flushDelay: nat)
    ensures var t, max := GoAggregate(script, deadlines, maxBytes, flushDelay), EffectiveMax(maxBytes);
            && t.outs != []
            && Conserves(t.outs, max, t.read)
            && Reports(t.outs[|t.outs| - 1].error, |t.outs|, max, t.read, t.error)
            && (Size(t.rest) < Size(script) || t.error != NoError)
  {
    var max := EffectiveMax(maxBytes);
    var (data, error, rest) := ReadOnce(script, max);
    TakenOne(Outcome(data, error));
    if WantsMore(Outcome(data, error), max) && Waits(flushDelay, deadlines) {
      var next := FillFrom(rest, data, max, 1);
      assert Fills(next, rest, data, max, 1) by { FillFromFacts(rest, data, max, 1); }
      TakenFirst(Outcome(data, error), next.outs);
    }
  }

  /**
   It reads on after the first read if and only if that left a reason to, the flush delay and the reader allow
   it, and the context is not done.  It reports a done context if and only if all reads went well, some data
   came, room was left, and it was to wait; and it stops at the first read for want of waiting if and only if
   there is no flush delay or the reader has no deadlines.
   */
  lemma WaitsIff(script: seq<Event>, deadlines: bool, maxBytes: int, flushDelay: nat)
    ensures var t, max := GoAggregate(script, deadlines, maxBytes, flushDelay), EffectiveMax(maxBytes);
            && t.outs != []
            && (|t.outs| > 1 <==> WantsMore(t.outs[0], max) && flushDelay != 0 && deadlines
                                  && !IsDone(ReadOnce(script, max).2))
            && (t.error == Cancelled <==>
                  WentWell(t.outs) && 0 < |t.read.data| < max && flushDelay != 0 && deadlines)
            && (t.error == Cancelled ==> IsDone(t.rest))
            && (t.read.reason == FlushDeadline && |t.outs| == 1 <==>
                  WantsMore(t.outs[0], max) && (flushDelay == 0 || !deadlines))
  {
    var max := EffectiveMax(maxBytes);
    var (data, error, rest) := ReadOnce(script, max);
    if WantsMore(Outcome(data, error), max) && Waits(flushDelay, deadlines) {
      FillFromFacts(rest, data, max, 1);
      StopsForContextIff(rest, data, max, 1);
      WentWellFirst(Outcome(data, error), FillFrom(rest, data, max, 1).outs);
    }
  }

  lemma Regrouped<T>(a: seq<T>, x: T, b: seq<T>)
    requires b != [] && b[0] == x
    ensures a + b == a + [x] + b[1..] && (b == [x] ==> b[1..] == [])
  {
  }

  /** The loop of `Aggregator.Read`, entered after a first read that left room in the buffer. */
  method FillUp(buf: array<byte>, first: bytes, max: nat, r: Reader)
      returns (read: AggregatedRead, error: ReadError, ghost outs: seq<Outcome>)
    requires 0 < |first| < max == buf.Length
    modifies r`script, r`log, buf
    ensures r.log == old(r.log) + outs
    ensures GoBatch(read, error, outs, r.script) == FillFrom(old(r.script), first, max, 1)
  {
    var out := first;
    var socketReads: nat := 1;
    outs := [];
    ghost var goal := FillFrom(r.script, first, max, 1);
    while |out| < max
      invariant r.log == old(r.log) + outs && |out| <= max
      invariant var next := FillFrom(r.script, out, max, socketReads); goal == next.(outs := outs + next.outs)
      decreases Size(r.script)
    {
      if r.ContextDone() {
        return AggregatedRead(out, FlushError, 0), Cancelled, outs;
      }
      ghost var next := FillFrom(r.script, out, max, socketReads);
      var n, err := r.Read(buf, max - |out|);
      socketReads := socketReads + 1;
      var more := buf[..n];
      Regrouped(outs, Outcome(more, err), next.outs);
      outs := outs + [Outcome(more, err)];
      out := out + more;
      if |out| >= max {
        return AggregatedRead(out, FlushSize, socketReads), err, outs;
      }
      if err != NoError {
        if err == Timeout {
          return AggregatedRead(out, FlushDeadline, socketReads), NoError, outs;
        }
        return AggregatedRead(out, ReasonForError(err), socketReads), err, outs;
      }
    }
    return AggregatedRead(out, FlushSize, socketReads), NoError, outs;
  }

  /** `Aggregator.Read` up to its record in the reader's history. */
  method AggregateOnce(maxBytes: int, flushDelay: nat, r: Reader)
      returns (read: AggregatedRead, error: ReadError, ghost outs: seq<Outcome>)
    modifies r`script, r`log
    ensures r.log == old(r.log) + outs
    ensures GoBatch(read, error, outs, r.script) == GoAggregate(old(r.script), r.deadlines, maxBytes, flushDelay)
  {
    var max := EffectiveMax(maxBytes);
    ghost var goal := GoAggregate(r.script, r.deadlines, maxBytes, flushDelay);
    var buf := new byte[max];
    var n, err := r.Read(buf, max);
    var out := buf[..n];
    outs := [Outcome(out, err)];
    if n == 0 {
      return AggregatedRead([], NoFlush, 0), err, outs;
    }
    if err != NoError {
      return AggregatedRead(out, ReasonForError(err), 1), err, outs;
    }
    if |out| >= max {
      return AggregatedRead(out, FlushSize, 1), NoError, outs;
    }
    if flushDelay == 0 || !r.deadlines {
      return AggregatedRead(out, FlushDeadline, 1), NoError, outs;
    }
    ghost var more;
    read, error, more := FillUp(buf, out, max, r);
    outs := outs + more;
  }

  /** What a caller of the aggregator relies on. */
  ghost predicate Ends(reader: Reader, last: GoBatch, max: nat)
    reads reader
  {
    && last.outs != [] && EndsWith(reader.log, last.outs) && reader.script == last.rest
    && Conserves(last.outs, max, last.read)
    && Reports(last.outs[|last.outs| - 1].error, |last.outs|, max, last.read, last.error)
    && (last.error == Cancelled ==> reader.ContextDone())
  }

  ghost predicate EndsWith(log: seq<Outcome>, outs: seq<Outcome>) {
    |outs| <= |log| && log[|log| - |outs|..] == outs
  }

  /** `Aggregator.Read`: what it does is `GoAggregate`. */
  method Aggregate(maxBytes: int, flushDelay: nat, r: Reader)
      returns (read: AggregatedRead, error: ReadError, ghost batch: GoBatch)
    modifies r
    ensures batch == GoAggregate(old(r.script), r.deadlines, maxBytes, flushDelay)
    ensures read == batch.read && error == batch.error
    ensures r.log == old(r.log) + batch.outs && r.calls == old(r.calls) + [Call(maxBytes, flushDelay, batch)]
    ensures Ends(r, batch, EffectiveMax(maxBytes))
    ensures Size(r.script) < old(Size(r.script)) || error != NoError
  {
    GoAggregateFacts(r.script, r.deadlines, maxBytes, flushDelay);
    WaitsIff(r.script, r.deadlines, maxBytes, flushDelay);
    ghost var outs;
    read, error, outs := AggregateOnce(maxBytes, flushDelay, r);
    batch := GoBatch(read, error, outs, r.script);
    r.calls := r.calls + [Call(maxBytes, flushDelay, batch)];
  }

  // ---------------------------------------------------------------- the Kotlin client

  function OutcomeOf(read: KotlinRead): Outcome {
    match read
    case EndOfStream => Outcome([], Eof)
    case Plain(plain) => Outcome(plain, NoError)
    case Threw => Outcome([], Broken)
  }

  /** A Java input stream over the same script: an error surfaces on a read that yields no data, and the end stays. */
  function StreamOnce(script: seq<Event>, max: nat): (r: (KotlinRead, seq<Event>))
    requires max > 0
    ensures Size(r.1) <= Size(script)
    ensures r.0.Plain? ==> |r.0.plain| <= max && Size(r.1) < Size(script)
  {
    if script == [] then (Threw, [])
    else
      var e := script[0];
      if e.offered != [] then
        var n := Min(|e.offered|, max);
        (Plain(e.offered[..n]), [e.(offered := e.offered[n..])] + script[1..])
      else if e.error == Eof then (EndOfStream, script)
      else (if e.error == NoError then Plain([]) else Threw, script[1..])
  }

  function AvailableNow(script: seq<Event>): int { if script == [] then 0 else script[0].available }

  /** The loop of `readAggregated`: more reads while bytes are announced and there is room. */
  function ReadMore(script: seq<Event>, buffer: bytes, size: nat): Batch
    decreases Size(script)
  {
    var available := Min(AvailableNow(script), size - |buffer|);
    if available <= 0 then Batch(Plain(buffer), [], script)
    else
      var (more, rest) := StreamOnce(script, available);
      if more == Threw then Batch(Threw, [OutcomeOf(more)], rest)
      else if !more.Plain? || more.plain == [] then Batch(Plain(buffer), [OutcomeOf(more)], rest)
      else
        var next := ReadMore(rest, buffer + more.plain, size);
        next.(outs := [OutcomeOf(more)] + next.outs)
  }

  /** What `readAggregated` makes of a script. */
  function KotlinAggregate(script: seq<Event>, size: nat, flushDelayMillis: int): Batch
    requires size > 0
  {
    var (first, rest) := StreamOnce(script, size);
    if !first.Plain? || first.plain == [] || flushDelayMillis <= 0 then Batch(first, [OutcomeOf(first)], rest)
    else
      var next := ReadMore(rest, first.plain, size);
      next.(outs := [OutcomeOf(first)] + next.outs)
  }

  /** What the rest of an aggregate does after `buffer`: it keeps what is read, or throws at the end of it. */
  ghost predicate Continues(t: Batch, buffer: bytes, size: nat) {
    && |buffer| + |Taken(t.outs)| <= size
    && match t.read
       case Plain(plain) => plain == buffer + Taken(t.outs)
       case EndOfStream => false
       case Threw => t.outs != [] && t.outs[|t.outs| - 1] == Outcome([], Broken)
  }

  lemma ContinuesAfter(t: Batch, buffer: bytes, plain: bytes, size: nat)
    requires Continues(t, buffer + plain, size)
    ensures Continues(t.(outs := [Outcome(plain, NoError)] + t.outs), buffer, size)
  {
    TakenFirst(Outcome(plain, NoError), t.outs);
    assert buffer + plain + Taken(t.outs) == buffer + (plain + Taken(t.outs));
  }

  lemma {:induction false} ReadMoreFacts(script: seq<Event>, buffer: bytes, size: nat)
    requires 0 < |buffer| <= size
    ensures var t := ReadMore(script, buffer, size);
            && Continues(t, buffer, size) && Size(t.rest) <= Size(script)
            && (t.outs == [] <==> |buffer| == size || AvailableNow(script) <= 0)
            && (t.read.Plain? && |t.read.plain| < size ==>
                  AvailableNow(t.rest) <= 0 || (t.outs != [] && t.outs[|t.outs| - 1].data == []))
    decreases Size(script)
  {
    var available := Min(AvailableNow(script), size - |buffer|);
    if available > 0 {
      var (more, rest) := StreamOnce(script, available);
      if more.Plain? && more.plain != [] {
        ReadMoreFacts(rest, buffer + more.plain, size);
        ContinuesAfter(ReadMore(rest, buffer + more.plain, size), buffer, more.plain, size);
      } else {
        TakenOne(OutcomeOf(more));
      }
    }
  }

  /**
   An aggregated read yields all bytes consumed, at most `size`; or the end of the stream at its first read;
   or nothing when a read throws, and then bytes are lost if and only if an earlier read of it had yielded some.
   It reads on if and only if there is a flush delay, room, and more bytes announced, and until that changes.
   */
  lemma KotlinAggregateFacts(script: seq<Event>, size: nat, flushDelayMillis: int)
    requires size > 0
    ensures var t := KotlinAggregate(script, size, flushDelayMillis);
            && t.outs != [] && |Taken(t.outs)| <= size
            && match t.read
               case Plain(plain) => plain == Taken(t.outs) && Size(t.rest) < Size(script)
               case EndOfStream => t.outs == [Outcome([], Eof)]
               case Threw => t.outs[|t.outs| - 1] == Outcome([], Broken) && (Taken(t.outs) != [] <==> |t.outs| > 1)
    ensures var t, first := KotlinAggregate(script, size, flushDelayMillis), StreamOnce(script, size);
            && t.outs[0] == OutcomeOf(first.0)
            && (|t.outs| > 1 <==>
                  && first.0.Plain? && 0 < |first.0.plain| < size
                  && flushDelayMillis > 0 && AvailableNow(first.1) > 0)
            && (t.read.Plain? && 0 < |t.read.plain| < size && flushDelayMillis > 0 ==>
                  AvailableNow(t.rest) <= 0 || t.outs[|t.outs| - 1].data == [])
  {
    var (first, rest) := StreamOnce(script, size);
    if !first.Plain? || first.plain == [] || flushDelayMillis <= 0 {
      TakenOne(OutcomeOf(first));
    } else {
      ReadMoreFacts(rest, first.plain, size);
      TakenFirst(OutcomeOf(first), ReadMore(rest, first.plain, size).outs);
    }
  }

  /** A connection that breaks right behind its last bytes: the client has read them and loses them. */
  lemma BrokenTailIsLost(b: byte, size: nat, flushDelayMillis: int)
    requires size >= 2 && flushDelayMillis > 0
    ensures KotlinAggregate([Event([b], Broken, false, 1)], size, flushDelayMillis) ==
            Batch(Threw, [Outcome([b], NoError), Outcome([], Broken)], [])
  {
    var script := [Event([b], Broken, false, 1)];
    var rest := [Event([], Broken, false, 1)];
    assert [b][..1] == [b] && [b][1..] == [] && script[1..] == [] && rest + [] == rest;
    assert StreamOnce(script, size) == (Plain([b]), rest);
    assert rest[1..] == [] && StreamOnce(rest, 1) == (Threw, []);
    assert ReadMore(rest, [b], size) == Batch(Threw, [Outcome([], Broken)], []);
  }

  method StreamRead(r: Reader, max: nat) returns (read: KotlinRead)
    requires max > 0
    modifies r`script, r`log
    ensures r.log == old(r.log) + [OutcomeOf(read)]
    ensures (read, r.script) == StreamOnce(old(r.script), max)
  {
    if r.script == [] {
      read := Threw;
    } else {
      var e := r.script[0];
      if e.offered != [] {
        var n := Min(|e.offered|, max);
        read := Plain(e.offered[..n]);
        r.script := [e.(offered := e.offered[n..])] + r.script[1..];
      } else {
        read := if e.error == NoError then Plain([]) else if e.error == Eof then EndOfStream else Threw;
        r.script := if read == EndOfStream then r.script else r.script[1..];
      }
    }
    r.log := r.log + [OutcomeOf(read)];
  }

  /** `readAggregated` up to its record in the reader's history. */
  method ReadOn(size: nat, flushDelayMillis: int, r: Reader)
      returns (read: KotlinRead, ghost outs: seq<Outcome>)
    requires size > 0
    modifies r`script, r`log
    ensures r.log == old(r.log) + outs
    ensures Batch(read, outs, r.script) == KotlinAggregate(old(r.script), size, flushDelayMillis)
  {
    read := StreamRead(r, size);
    outs := [OutcomeOf(read)];
    if !read.Plain? || read.plain == [] { return; }
    var buffer := read.plain;
    if flushDelayMillis <= 0 { return; }
    ghost var goal := KotlinAggregate(old(r.script), size, flushDelayMillis);
    while |buffer| < size
      invariant r.log == old(r.log) + outs && |buffer| <= size
      invariant var next := ReadMore(r.script, buffer, size); goal == next.(outs := outs + next.outs)
      decreases Size(r.script)
    {
      var available := Min(AvailableNow(r.script), size - |buffer|);
      if available <= 0 { break; }
      ghost var next := ReadMore(r.script, buffer, size);
      var more := StreamRead(r, available);
      Regrouped(outs, OutcomeOf(more), next.outs);
      outs := outs + [OutcomeOf(more)];
      if more == Threw { return Threw, outs; }
      if !more.Plain? || more.plain == [] { return Plain(buffer), outs; }
      buffer := buffer + more.plain;
    }
    read := Plain(buffer);
  }

  /** `readAggregated`: what it does is `KotlinAggregate`. */
  method ReadAggregated(size: nat, flushDelayMillis: int, r: Reader) returns (read: KotlinRead, ghost batch: Batch)
    requires size > 0
    modifies r
    ensures batch == KotlinAggregate(old(r.script), size, flushDelayMillis)
    ensures read == batch.read && r.script == batch.rest
    ensures r.log == old(r.log) + batch.outs
    ensures r.kotlinCalls == old(r.kotlinCalls) + [KotlinCall(size, flushDelayMillis, batch)]
  {
    ghost var outs;
    read, outs := ReadOn(size, flushDelayMillis, r);
    batch := Batch(read, outs, r.script);
    r.kotlinCalls := r.kotlinCalls + [KotlinCall(size, flushDelayMillis, batch)];
  }
}
