/**
 One direction of one session: a sender loop and a receiver loop that share nothing but a mailbox
 of objects.  A run is a sequence of moves, each holding at most one store request, so every
 interleaving of the requests of the two loops is a run.  The two halves are local programs; the
 store decides through `Allowed` which answers they may see.  With `strong` false the store is weak:
 a GET or HEAD may miss an object that is there, and an ACK read may return an older ACK.
 */
module Channel {
  import opened Common

  // ---------------------------------------------------------------- configuration

  /** `drain` selects a repaired receiver; the source has it off. */
  datatype Config = Config(
    sendWindow: uint64, chunkSize: nat, sendMax: nat,
    recvWindow: uint64, closeCheckAfterMisses: int, recvMax: nat,
    drain: bool)

  const DEFAULT_CLOSE_CHECK := 4

  function CloseCheckEvery(cfg: Config): nat {
    if cfg.closeCheckAfterMisses <= 0 then DEFAULT_CLOSE_CHECK else cfg.closeCheckAfterMisses
  }

  function AckInterval(window: uint64): (e: nat)
    ensures e >= 1 && (window <= 2 ==> e == 1)
    ensures window > 2 ==> 2 * e <= window < 2 * e + 2
  {
    if window <= 2 then 1 else window / 2
  }

  /** The window test, with the wrap-around of the 64-bit sum. */
  predicate Admits(seqNo: nat, acked: nat, window: uint64) {
    window == 0 || seqNo < (acked + window) % U64
  }

  /** The byte-limit test, with the wrap-around of the signed 64-bit sum. */
  predicate Exceeds(total: nat, n: nat, limit: nat) {
    limit > 0 && Wrap64(total + n) > limit
  }

  // ---------------------------------------------------------------- state

  /** The objects of this channel.  `acks` lists every ACK value ever PUT, oldest first. */
  datatype Mailbox = Mailbox(data: map<nat, bytes>, acks: seq<nat>, closed: bool)

  const EMPTY_MAILBOX := Mailbox(map[], [], false)

  function LastOf(acks: seq<nat>): nat {
    if acks == [] then 0 else acks[|acks| - 1]
  }

  function StoredAck(mail: Mailbox): nat { LastOf(mail.acks) }

  /** What the read that produced a chunk reported besides the data. */
  datatype Then = More | Ended

  datatype SendPc =
    | Reading
    | Waiting(chunk: bytes, after: Then, slow: bool)
    | Putting(chunk: bytes, after: Then)
    | Closing
    | Finished

  /** `taken`, `lost`, `chunks`, `ackGets` and `waits` are history: no move tests them. */
  datatype Sender = Sender(
    pc: SendPc, seqNo: nat, acked: nat, sent: nat,
    taken: bytes, lost: bytes, chunks: seq<bytes>, ackGets: nat, waits: nat)

  const NEW_SENDER := Sender(Reading, 0, 0, 0, [], [], [], 0, 0)

  datatype Ending = PeerClosed | Failed

  datatype RecvPc = Getting | Writing(plain: bytes) | Acking | Heading | Stopped(how: Ending)

  /** `written`, `gap` and `heads` are history. */
  datatype Receiver = Receiver(
    pc: RecvPc, seqNo: nat, lastAck: nat, received: nat, misses: nat, sawClose: bool,
    written: bytes, gap: nat, heads: nat)

  const NEW_RECEIVER := Receiver(Getting, 0, 0, 0, 0, false, [], 0, 0)

  /** `missedAt` remembers how many chunks had been PUT at the latest data miss. */
  datatype Chan = Chan(mail: Mailbox, snd: Sender, rcv: Receiver, missedAt: nat)

  const NEW_CHAN := Chan(EMPTY_MAILBOX, NEW_SENDER, NEW_RECEIVER, 0)

  // ---------------------------------------------------------------- moves

  datatype Move =
    | Read(chunk: bytes, after: Then)
    | Admit
    | FetchAck(next: nat)
    | PutChunk
    | PutClose
    | SendFail
    | Hit(plain: bytes)
    | Miss
    | Write
    | WriteFail(n: nat)
    | PutAck
    | Head(present: bool)
    | RecvFail

  predicate IsSend(m: Move) {
    m.Read? || m.Admit? || m.FetchAck? || m.PutChunk? || m.PutClose? || m.SendFail?
  }

  function AfterRead(after: Then): SendPc {
    if after == More then Reading else Closing
  }

  function Pending(pc: SendPc): bytes {
    if pc.Waiting? || pc.Putting? then pc.chunk else []
  }

  /**
   The sender loop, one move at a time.  A request that fails after it took effect is its own move
   followed by `SendFail`; the receiver's is followed by `RecvFail`.
   */
  function SendStep(cfg: Config, s: Sender, m: Move): Option<Sender> {
    match (s.pc, m)
    case (Reading, Read(chunk, after)) =>
      if |chunk| > cfg.chunkSize then None
      else if chunk == [] then Some(s.(pc := AfterRead(after)))
      else if Exceeds(s.sent, |chunk|, cfg.sendMax) then
        Some(s.(pc := Closing, taken := s.taken + chunk, lost := chunk))
      else Some(s.(pc := Waiting(chunk, after, false), taken := s.taken + chunk))
    case (Waiting(chunk, after, slow), Admit) =>
      if !Admits(s.seqNo, s.acked, cfg.sendWindow) then None
      else Some(s.(pc := Putting(chunk, after), waits := s.waits + if slow then 1 else 0))
    case (Waiting(chunk, after, _), FetchAck(next)) =>
      if Admits(s.seqNo, s.acked, cfg.sendWindow) then None
      else Some(s.(pc := Waiting(chunk, after, true), acked := Max(s.acked, next), ackGets := s.ackGets + 1))
    case (Putting(chunk, after), PutChunk) =>
      Some(s.(pc := AfterRead(after), seqNo := s.seqNo + 1, sent := s.sent + |chunk|, chunks := s.chunks + [chunk]))
    case (Closing, PutClose) => Some(s.(pc := Finished))
    case (Finished, SendFail) => None
    case (_, SendFail) => Some(s.(pc := Finished, lost := s.lost + Pending(s.pc)))
    case _ => None
  }

  /** The receiver loop, one move at a time. */
  function RecvStep(cfg: Config, r: Receiver, m: Move): Option<Receiver> {
    match (r.pc, m)
    case (Getting, Hit(plain)) =>
      if Exceeds(r.received, |plain|, cfg.recvMax) then Some(r.(pc := Stopped(Failed)))
      else Some(r.(pc := Writing(plain)))
    case (Getting, Miss) =>
      if r.sawClose then Some(r.(pc := Stopped(PeerClosed)))
      else if r.misses + 1 >= CloseCheckEvery(cfg) then
        Some(r.(pc := Heading, misses := 0, gap := r.gap + 1))
      else Some(r.(misses := r.misses + 1, gap := r.gap + 1))
    case (Writing(plain), Write) =>
      var next := r.seqNo + 1;
      Some(r.(pc := if next - r.lastAck >= AckInterval(cfg.recvWindow) then Acking else Getting,
              seqNo := next, received := r.received + |plain|, written := r.written + plain,
              misses := 0, gap := 0, heads := 0))
    case (Writing(plain), WriteFail(n)) =>
      if n > |plain| then None
      else Some(r.(pc := Stopped(Failed), written := r.written + plain[..n]))
    case (Acking, PutAck) => Some(r.(pc := Getting, lastAck := r.seqNo))
    case (Heading, Head(present)) =>
      if !present then Some(r.(pc := Getting, heads := r.heads + 1))
      else if cfg.drain then Some(r.(pc := Getting, heads := r.heads + 1, sawClose := true))
      else Some(r.(pc := Stopped(PeerClosed), heads := r.heads + 1))
    case (Stopped(_), RecvFail) => None
    case (_, RecvFail) => Some(r.(pc := Stopped(Failed)))
    case _ => None
  }

  // ---------------------------------------------------------------- the store

  datatype Effect = NoEffect | PutsData(n: nat, chunk: bytes) | PutsAck(next: nat) | PutsClose

  /** The PUT a move issues. */
  function EffectOf(s: Sender, r: Receiver, m: Move): Effect {
    match m
    case PutChunk => PutsData(s.seqNo, Pending(s.pc))
    case PutAck => PutsAck(r.seqNo)
    case PutClose => PutsClose
    case _ => NoEffect
  }

  function Deliver(mail: Mailbox, e: Effect): Mailbox {
    match e
    case NoEffect => mail
    case PutsData(n, chunk) => mail.(data := mail.data[n := chunk])
    case PutsAck(next) => mail.(acks := mail.acks + [next])
    case PutsClose => mail.(closed := true)
  }

  /** May the store give this answer?  `n` is the sequence number the receiver asks for. */
  predicate Allowed(strong: bool, mail: Mailbox, n: nat, m: Move) {
    match m
    case FetchAck(next) => if strong then next == StoredAck(mail) else next == 0 || next in mail.acks
    case Hit(plain) => n in mail.data && mail.data[n] == plain
    case Miss => strong ==> n !in mail.data
    case Head(present) => (present ==> mail.closed) && (strong ==> present == mail.closed)
    case _ => true
  }

  function Step(cfg: Config, strong: bool, c: Chan, m: Move): Option<Chan> {
    if !Allowed(strong, c.mail, c.rcv.seqNo, m) then None
    else
      var mail := Deliver(c.mail, EffectOf(c.snd, c.rcv, m));
      if IsSend(m) then
        match SendStep(cfg, c.snd, m)
        case None => None
        case Some(s) => Some(Chan(mail, s, c.rcv, c.missedAt))
      else
        match RecvStep(cfg, c.rcv, m)
        case None => None
        case Some(r) => Some(Chan(mail, c.snd, r, if m.Miss? then |c.snd.chunks| else c.missedAt))
  }

  /** Where a whole run leads, if each of its moves is possible. */
  function Run(cfg: Config, strong: bool, c: Chan, moves: seq<Move>): Option<Chan> {
    if moves == [] then Some(c)
    else
      match Run(cfg, strong, c, moves[..|moves| - 1])
      case None => None
      case Some(d) => Step(cfg, strong, d, moves[|moves| - 1])
  }

  ghost predicate Reaches(cfg: Config, strong: bool, c: Chan, d: Chan) {
    exists moves: seq<Move> :: Run(cfg, strong, c, moves) == Some(d)
  }

  ghost predicate Reachable(cfg: Config, strong: bool, c: Chan) {
    Reaches(cfg, strong, NEW_CHAN, c)
  }

  /** Every possible move leads from a state that `safe` accepts to one that it accepts. */
  ghost predicate Kept(cfg: Config, strong: bool, safe: Chan -> bool) {
    forall c: Chan, m: Move :: safe(c) && Step(cfg, strong, c, m).Some? ==> safe(Step(cfg, strong, c, m).value)
  }

  lemma ReachesSelf(cfg: Config, strong: bool, c: Chan)
    ensures Reaches(cfg, strong, c, c)
  {
    assert Run(cfg, strong, c, []) == Some(c);
  }

  lemma ReachesStep(cfg: Config, strong: bool, c: Chan, d: Chan, m: Move, e: Chan)
    requires Reaches(cfg, strong, c, d) && Step(cfg, strong, d, m) == Some(e)
    ensures Reaches(cfg, strong, c, e)
  {
    var moves :| Run(cfg, strong, c, moves) == Some(d);
    assert (moves + [m])[..|moves|] == moves;
    assert Run(cfg, strong, c, moves + [m]) == Some(e);
  }

  ghost function Reached(cfg: Config, strong: bool): Chan -> bool {
    (c: Chan) => Reachable(cfg, strong, c)
  }

  lemma ReachableIsKept(cfg: Config, strong: bool)
    ensures Kept(cfg, strong, Reached(cfg, strong))
  {
    forall c: Chan, m: Move | Reachable(cfg, strong, c) && Step(cfg, strong, c, m).Some?
      ensures Reachable(cfg, strong, Step(cfg, strong, c, m).value)
    {
      ReachesStep(cfg, strong, NEW_CHAN, c, m, Step(cfg, strong, c, m).value);
    }
  }

  // ---------------------------------------------------------------- the invariant

  /** Every byte taken is in a PUT chunk, in the chunk in hand, or lost. */
  ghost predicate SenderData(cfg: Config, s: Sender) {
    && |s.chunks| == s.seqNo
    && s.taken == Flatten(s.chunks) + Pending(s.pc) + s.lost
    && (s.pc.Reading? || s.pc.Waiting? || s.pc.Putting? ==> s.lost == [])
    && (s.pc.Waiting? || s.pc.Putting? ==> 0 < |s.pc.chunk| <= cfg.chunkSize)
    && (forall i :: 0 <= i < |s.chunks| ==> 0 < |s.chunks[i]| <= cfg.chunkSize)
    && |s.lost| <= cfg.chunkSize
  }

  ghost predicate SenderLimit(cfg: Config, s: Sender) {
    && s.sent == |Flatten(s.chunks)|
    && (s.pc.Waiting? || s.pc.Putting? ==> !Exceeds(s.sent, |s.pc.chunk|, cfg.sendMax) && |s.pc.chunk| <= cfg.chunkSize)
    && (cfg.sendMax > 0 && cfg.sendMax + cfg.chunkSize <= I64_MAX ==> s.sent <= cfg.sendMax)
  }

  ghost predicate SenderWindow(cfg: Config, s: Sender) {
    && (s.pc.Putting? ==> Admits(s.seqNo, s.acked, cfg.sendWindow) && |s.pc.chunk| > 0)
    && (s.pc.Waiting? ==> |s.pc.chunk| > 0)
    && (cfg.sendWindow > 0 ==> s.seqNo <= s.acked + cfg.sendWindow)
    && (s.ackGets > 0 ==> 0 < cfg.sendWindow <= s.seqNo)
    && (s.acked > 0 ==> s.ackGets > 0)
    && (s.ackGets > 0 && s.seqNo == cfg.sendWindow ==> |Pending(s.pc)| + |s.lost| > 0)
  }

  ghost predicate MailInv(s: Sender, mail: Mailbox) {
    && |s.chunks| == s.seqNo
    && (forall n: nat :: n in mail.data <==> n < s.seqNo)
    && (forall n: nat :: n in mail.data ==> mail.data[n] == s.chunks[n])
    && (mail.closed ==> s.pc.Finished?)
  }

  ghost predicate RecvData(cfg: Config, chunks: seq<bytes>, r: Receiver) {
    && r.seqNo <= |chunks|
    && r.received == |Flatten(chunks[..r.seqNo])|
    && (r.pc.Writing? ==> r.seqNo < |chunks| && r.pc.plain == chunks[r.seqNo])
    && (r.pc != Stopped(Failed) ==> r.written == Flatten(chunks[..r.seqNo]))
    && Flatten(chunks[..r.seqNo]) <= r.written <= Flatten(chunks)
  }

  /** What is written stays within the receiver's byte limit, as long as the sum that tests it does not wrap. */
  ghost predicate RecvLimit(cfg: Config, r: Receiver) {
    && (r.pc.Writing? ==> !Exceeds(r.received, |r.pc.plain|, cfg.recvMax) && |r.pc.plain| <= cfg.chunkSize)
    && (r.pc != Stopped(Failed) ==> |r.written| == r.received)
    && (cfg.recvMax > 0 && cfg.recvMax + cfg.chunkSize <= I64_MAX ==>
          r.received <= cfg.recvMax && |r.written| <= cfg.recvMax)
  }

  /** The ACKs stored so far are E, 2E, 3E, ... */
  ghost predicate AckGrid(e: nat, acks: seq<nat>) {
    forall i :: 0 <= i < |acks| ==> acks[i] == (i + 1) * e
  }

  ghost predicate Ascending(acks: seq<nat>) {
    && (forall i :: 0 <= i < |acks| ==> 0 < acks[i] <= acks[|acks| - 1])
    && (forall i, j :: 0 <= i < j < |acks| ==> acks[i] < acks[j])
  }

  ghost predicate RecvAck(e: nat, acks: seq<nat>, r: Receiver) {
    && Ascending(acks)
    && r.lastAck == LastOf(acks)
    && r.lastAck <= r.seqNo <= r.lastAck + e
    && (r.pc.Acking? ==> r.seqNo == r.lastAck + e)
    && (r.seqNo == r.lastAck + e ==> r.pc.Acking? || r.pc == Stopped(Failed))
  }

  ghost predicate RecvMisses(k: nat, r: Receiver) {
    && r.misses < k
    && (!r.sawClose && !r.pc.Stopped? ==> r.gap == (r.heads + if r.pc.Heading? then 1 else 0) * k + r.misses)
    && (r.pc.Heading? ==> r.misses == 0)
  }

  /** The sender holds one of the first stored ACKs, and each completed wait used up one of them. */
  ghost predicate Knows(s: Sender, window: uint64, acks: seq<nat>, used: nat) {
    && used <= |acks|
    && s.acked == LastOf(acks[..used])
    && s.waits <= used
    && (s.pc.Waiting? && s.pc.slow && Admits(s.seqNo, s.acked, window) ==> s.waits < used)
  }

  ghost predicate SendAck(window: uint64, s: Sender, acks: seq<nat>) {
    exists used: nat :: Knows(s, window, acks, used)
  }

  ghost predicate Inv(cfg: Config, c: Chan) {
    var e := AckInterval(cfg.recvWindow);
    && SenderData(cfg, c.snd)
    && SenderLimit(cfg, c.snd)
    && SenderWindow(cfg, c.snd)
    && MailInv(c.snd, c.mail)
    && (c.rcv.sawClose ==> c.mail.closed)
    && RecvData(cfg, c.snd.chunks, c.rcv)
    && RecvLimit(cfg, c.rcv)
    && RecvAck(e, c.mail.acks, c.rcv)
    && RecvMisses(CloseCheckEvery(cfg), c.rcv)
    && AckGrid(e, c.mail.acks)
    && SendAck(cfg.sendWindow, c.snd, c.mail.acks)
  }
}
