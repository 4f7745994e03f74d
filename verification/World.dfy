/**
 Any number of sessions, each with two directions, sharing one object store whose keys are strings.
 Every GET, HEAD and PUT goes through the key builder; a store key remembers all the versions PUT
 under it, and a weak store may answer with any of them or miss.  Objects carry what their seal binds
 them to, and reading one for another purpose fails to authenticate.
 */
module World {
  import opened Common
  import opened Channel
  import opened ChannelSafety
  import opened KeyLayout
  import KeyReaders
  import CloseMarker

  /** The side that sends in this direction, and so the side whose close marker ends it. */
  function SideName(d: Direction): string { if d == C2S then "client" else "server" }

  datatype ChanId = ChanId(sid: string, dir: Direction)

  datatype Body = Chunk(plain: bytes) | Next(next: nat) | Marker

  /** An object as sealed for a type, a session, a direction and a sequence number. */
  datatype Object = Sealed(kind: string, sid: string, dir: string, seqNo: nat, body: Body)

  type Store = map<string, seq<Object>>

  function Versions(store: Store, key: string): seq<Object> {
    if key in store then store[key] else []
  }

  function Put(store: Store, key: string, o: Object): Store {
    store[key := Versions(store, key) + [o]]
  }

  /** A GET or HEAD may see this version, or nothing at all when `seen` is None. */
  ghost predicate Sees(strong: bool, store: Store, key: string, seen: Option<Object>) {
    var vs := Versions(store, key);
    match seen
    case None => strong ==> vs == []
    case Some(o) => if strong then vs != [] && o == vs[|vs| - 1] else o in vs
  }

  // ---------------------------------------------------------------- the keys of one channel

  function DataOf(id: ChanId, n: nat): KeyId { DataKey(DirName(id.dir), id.sid, n) }

  function AckOf(id: ChanId): KeyId { AckKey(DirName(id.dir), id.sid) }

  function CloseOf(id: ChanId): KeyId { CloseKey(SideName(id.dir), id.sid) }

  function SealedChunk(id: ChanId, n: nat, plain: bytes): Object {
    Sealed("data", id.sid, DirName(id.dir), n, Chunk(plain))
  }

  function SealedAck(id: ChanId, next: nat): Object {
    Sealed("ack", id.sid, DirName(id.dir), 0, Next(next))
  }

  function SealedClose(id: ChanId): Object {
    Sealed("close", id.sid, SideName(id.dir), 0, Marker)
  }

  // ---------------------------------------------------------------- the machine

  /** The two loops of one direction; `missedAt` is history. */
  datatype Ends = Ends(cfg: Config, snd: Sender, rcv: Receiver, missedAt: nat)

  datatype World = World(store: Store, chans: map<ChanId, Ends>)

  datatype Label = Start(id: ChanId, cfg: Config) | Act(id: ChanId, move: Move)

  /** A session id is new when nothing of it is in the store. */
  ghost predicate Unused(key: KeyId -> string, store: Store, id: ChanId) {
    && key(AckOf(id)) !in store
    && key(CloseOf(id)) !in store
    && forall n: nat :: key(DataOf(id, n)) !in store
  }

  /** The store may give the answer that the move got. */
  ghost predicate Answers(key: KeyId -> string, strong: bool, store: Store, id: ChanId, n: nat, m: Move) {
    match m
    case FetchAck(next) =>
      || (next == 0 && Sees(strong, store, key(AckOf(id)), None))
      || Sees(strong, store, key(AckOf(id)), Some(SealedAck(id, next)))
    case Hit(plain) => Sees(strong, store, key(DataOf(id, n)), Some(SealedChunk(id, n, plain)))
    case Miss => Sees(strong, store, key(DataOf(id, n)), None)
    case Head(present) =>
      if present then Versions(store, key(CloseOf(id))) != [] else Sees(strong, store, key(CloseOf(id)), None)
    case _ => true
  }

  function Apply(key: KeyId -> string, store: Store, id: ChanId, e: Effect): Store {
    match e
    case NoEffect => store
    case PutsData(n, chunk) => Put(store, key(DataOf(id, n)), SealedChunk(id, n, chunk))
    case PutsAck(next) => Put(store, key(AckOf(id)), SealedAck(id, next))
    case PutsClose => Put(store, key(CloseOf(id)), SealedClose(id))
  }

  function Local(e: Ends, m: Move): Option<Ends> {
    if IsSend(m) then
      match SendStep(e.cfg, e.snd, m)
      case None => None
      case Some(s) => Some(e.(snd := s))
    else
      match RecvStep(e.cfg, e.rcv, m)
      case None => None
      case Some(r) => Some(e.(rcv := r, missedAt := if m.Miss? then |e.snd.chunks| else e.missedAt))
  }

  ghost function WorldStep(key: KeyId -> string, strong: bool, w: World, l: Label): Option<World> {
    match l
    case Start(id, cfg) =>
      if id in w.chans || !Plain(id.sid) || !Unused(key, w.store, id) then None
      else Some(w.(chans := w.chans[id := Ends(cfg, NEW_SENDER, NEW_RECEIVER, 0)]))
    case Act(id, m) =>
      if id !in w.chans || !Answers(key, strong, w.store, id, w.chans[id].rcv.seqNo, m) then None
      else
        var e := w.chans[id];
        match Local(e, m)
        case None => None
        case Some(f) => Some(World(Apply(key, w.store, id, EffectOf(e.snd, e.rcv, m)), w.chans[id := f]))
  }

  ghost function WorldRun(key: KeyId -> string, strong: bool, w: World, labels: seq<Label>): Option<World> {
    if labels == [] then Some(w)
    else
      match WorldRun(key, strong, w, labels[..|labels| - 1])
      case None => None
      case Some(v) => WorldStep(key, strong, v, labels[|labels| - 1])
  }

  // ---------------------------------------------------------------- one channel's view of the store

  ghost predicate Injective(key: KeyId -> string) {
    forall a: KeyId, b: KeyId :: PlainId(a) && PlainId(b) && key(a) == key(b) ==> a == b
  }

  function AckObjects(id: ChanId, acks: seq<nat>): (vs: seq<Object>)
    ensures |vs| == |acks| && forall i :: 0 <= i < |acks| ==> vs[i] == SealedAck(id, acks[i])
  {
    seq(|acks|, i requires 0 <= i < |acks| => SealedAck(id, acks[i]))
  }

  lemma OneMoreAck(id: ChanId, acks: seq<nat>, next: nat)
    ensures AckObjects(id, acks + [next]) == AckObjects(id, acks) + [SealedAck(id, next)]
  {
  }

  /** The objects under this channel's keys are exactly this mailbox. */
  ghost predicate Shows(key: KeyId -> string, store: Store, id: ChanId, mail: Mailbox) {
    && (forall n: nat :: Versions(store, key(DataOf(id, n))) ==
                         if n in mail.data then [SealedChunk(id, n, mail.data[n])] else [])
    && Versions(store, key(AckOf(id))) == AckObjects(id, mail.acks)
    && (Versions(store, key(CloseOf(id))) != [] <==> mail.closed)
  }

  function ChanOf(e: Ends, mail: Mailbox): Chan { Chan(mail, e.snd, e.rcv, e.missedAt) }

  ghost predicate Refines(key: KeyId -> string, strong: bool, store: Store, id: ChanId, e: Ends, mail: Mailbox) {
    && Plain(id.sid)
    && Shows(key, store, id, mail)
    && Reachable(e.cfg, strong, ChanOf(e, mail))
  }

  ghost predicate WorldInv(key: KeyId -> string, strong: bool, w: World) {
    forall id :: id in w.chans ==> exists mail: Mailbox :: Refines(key, strong, w.store, id, w.chans[id], mail)
  }

  /** What the store answers at the keys is what the mailbox answers. */
  lemma AnswersAllowed(key: KeyId -> string, strong: bool, store: Store, id: ChanId, mail: Mailbox, n: nat, m: Move)
    requires Shows(key, store, id, mail) && Answers(key, strong, store, id, n, m)
    ensures Allowed(strong, mail, n, m)
  {
    var acks := Versions(store, key(AckOf(id)));
    if m.FetchAck? && Sees(strong, store, key(AckOf(id)), Some(SealedAck(id, m.next))) && !strong {
      var i :| 0 <= i < |acks| && acks[i] == SealedAck(id, m.next);
      assert mail.acks[i] == m.next;
    }
  }

  /** A PUT under one key leaves the versions of every other key alone. */
  lemma PutElsewhere(key: KeyId -> string, store: Store, a: KeyId, o: Object, b: KeyId)
    requires Injective(key) && PlainId(a) && PlainId(b) && a != b
    ensures Versions(Put(store, key(a), o), key(b)) == Versions(store, key(b))
  {
  }

  function Target(id: ChanId, e: Effect): KeyId
    requires !e.NoEffect?
  {
    match e
    case PutsData(n, _) => DataOf(id, n)
    case PutsAck(_) => AckOf(id)
    case PutsClose => CloseOf(id)
  }

  /** A PUT of one channel does not show in the mailbox of another. */
  lemma OthersUnmoved(key: KeyId -> string, store: Store, id: ChanId, e: Effect, other: ChanId, mail: Mailbox)
    requires Injective(key) && Plain(id.sid) && Plain(other.sid) && id != other
    requires Shows(key, store, other, mail)
    ensures Shows(key, Apply(key, store, id, e), other, mail)
  {
    if !e.NoEffect? {
      var o := match e
        case PutsData(n, c) => SealedChunk(id, n, c)
        case PutsAck(k) => SealedAck(id, k)
        case PutsClose => SealedClose(id);
      var t := Target(id, e);
      forall n: nat
        ensures Versions(Put(store, key(t), o), key(DataOf(other, n))) == Versions(store, key(DataOf(other, n)))
      {
        PutElsewhere(key, store, t, o, DataOf(other, n));
      }
      PutElsewhere(key, store, t, o, AckOf(other));
      PutElsewhere(key, store, t, o, CloseOf(other));
    }
  }

  /** A PUT of this channel shows in its mailbox as the mailbox machine says. */
  lemma OwnElsewhere(key: KeyId -> string, store: Store, id: ChanId, t: KeyId, o: Object)
    requires Injective(key) && Plain(id.sid) && PlainId(t)
    ensures var now := Put(store, key(t), o);
            && (forall n: nat :: DataOf(id, n) != t ==>
                  Versions(now, key(DataOf(id, n))) == Versions(store, key(DataOf(id, n))))
            && (AckOf(id) != t ==> Versions(now, key(AckOf(id))) == Versions(store, key(AckOf(id))))
            && (CloseOf(id) != t ==> Versions(now, key(CloseOf(id))) == Versions(store, key(CloseOf(id))))
            && Versions(now, key(t)) == Versions(store, key(t)) + [o]
  {
    forall n: nat | DataOf(id, n) != t
      ensures Versions(Put(store, key(t), o), key(DataOf(id, n))) == Versions(store, key(DataOf(id, n)))
    {
      PutElsewhere(key, store, t, o, DataOf(id, n));
    }
    if AckOf(id) != t { PutElsewhere(key, store, t, o, AckOf(id)); }
    if CloseOf(id) != t { PutElsewhere(key, store, t, o, CloseOf(id)); }
  }

  lemma OwnShows(key: KeyId -> string, store: Store, id: ChanId, e: Effect, mail: Mailbox)
    requires Injective(key) && Plain(id.sid) && Shows(key, store, id, mail)
    requires e.PutsData? ==> e.n !in mail.data
    ensures Shows(key, Apply(key, store, id, e), id, Deliver(mail, e))
  {
    match e
    case NoEffect =>
    case PutsData(n, chunk) => OwnElsewhere(key, store, id, DataOf(id, n), SealedChunk(id, n, chunk));
    case PutsAck(next) =>
      OwnElsewhere(key, store, id, AckOf(id), SealedAck(id, next));
      OneMoreAck(id, mail.acks, next);
    case PutsClose => OwnElsewhere(key, store, id, CloseOf(id), SealedClose(id));
  }

  lemma ActRefines(key: KeyId -> string, strong: bool, w: World, id: ChanId, m: Move, mail: Mailbox)
      returns (mail': Mailbox)
    requires Injective(key) && WorldStep(key, strong, w, Act(id, m)).Some?
    requires Refines(key, strong, w.store, id, w.chans[id], mail)
    ensures var v := WorldStep(key, strong, w, Act(id, m)).value;
            Refines(key, strong, v.store, id, v.chans[id], mail')
  {
    var e := w.chans[id];
    var c := ChanOf(e, mail);
    var eff := EffectOf(e.snd, e.rcv, m);
    AnswersAllowed(key, strong, w.store, id, mail, e.rcv.seqNo, m);
    mail' := Deliver(mail, eff);
    var d := ChanOf(Local(e, m).value, mail');
    assert Step(e.cfg, strong, c, m) == Some(d);
    StoreOnlyGrows(e.cfg, strong, c, m);
    OwnShows(key, w.store, id, eff, mail);
    ReachesStep(e.cfg, strong, NEW_CHAN, c, m, d);
  }

  lemma StartRefines(key: KeyId -> string, strong: bool, w: World, id: ChanId, cfg: Config)
    requires Unused(key, w.store, id) && Plain(id.sid)
    ensures Refines(key, strong, w.store, id, Ends(cfg, NEW_SENDER, NEW_RECEIVER, 0), EMPTY_MAILBOX)
  {
    ReachesSelf(cfg, strong, NEW_CHAN);
  }

  lemma WorldInvStep(key: KeyId -> string, strong: bool, w: World, l: Label)
    requires Injective(key) && WorldInv(key, strong, w) && WorldStep(key, strong, w, l).Some?
    ensures WorldInv(key, strong, WorldStep(key, strong, w, l).value)
  {
    var v := WorldStep(key, strong, w, l).value;
    forall id | id in v.chans ensures exists mail: Mailbox :: Refines(key, strong, v.store, id, v.chans[id], mail) {
      if l.Start? && id == l.id {
        StartRefines(key, strong, w, id, l.cfg);
      } else {
        var mail: Mailbox :| Refines(key, strong, w.store, id, w.chans[id], mail);
        if l.Act? && id == l.id {
          var mail' := ActRefines(key, strong, w, id, l.move, mail);
        } else if l.Act? {
          var other: Mailbox :| Refines(key, strong, w.store, l.id, w.chans[l.id], other);
          OthersUnmoved(key, w.store, l.id, EffectOf(w.chans[l.id].snd, w.chans[l.id].rcv, l.move), id, mail);
          assert Refines(key, strong, v.store, id, v.chans[id], mail);
        } else {
          assert Refines(key, strong, v.store, id, v.chans[id], mail);
        }
      }
    }
  }

  /** In every run of the shared world, every channel is in a state of its own two-party machine. */
  lemma {:induction false} WorldRefinesChannels(key: KeyId -> string, strong: bool, store: Store, labels: seq<Label>)
    requires Injective(key) && WorldRun(key, strong, World(store, map[]), labels).Some?
    ensures WorldInv(key, strong, WorldRun(key, strong, World(store, map[]), labels).value)
  {
    if labels != [] {
      var front := labels[..|labels| - 1];
      WorldRefinesChannels(key, strong, store, front);
      WorldInvStep(key, strong, WorldRun(key, strong, World(store, map[]), front).value, labels[|labels| - 1]);
    }
  }

  // ---------------------------------------------------------------- with the keys of the source

  function GoKeys(prefix: string): KeyId -> string { (id: KeyId) => GoKey(prefix, id) }

  /** The keys of one direction of a session, as they are documented. */
  lemma ChannelKeys(prefix: string, id: ChanId, n: nat)
    requires Plain(prefix) && Plain(id.sid)
    ensures var dir, side := if id.dir == C2S then "c2s" else "s2c", if id.dir == C2S then "client" else "server";
            && DataOf(id, n) == DataKey(dir, id.sid, n) && AckOf(id) == AckKey(dir, id.sid)
            && CloseOf(id) == CloseKey(side, id.sid)
    ensures GoKeys(prefix)(DataOf(id, n)) == prefix + "/v1/" + KeyReaders.DocumentedTail(DataOf(id, n))
    ensures GoKeys(prefix)(AckOf(id)) == prefix + "/v1/" + KeyReaders.DocumentedTail(AckOf(id))
    ensures GoKeys(prefix)(CloseOf(id)) == prefix + "/v1/" + KeyReaders.DocumentedTail(CloseOf(id))
  {
    KeyReaders.DocumentedKeys(prefix, DataOf(id, n));
    KeyReaders.DocumentedKeys(prefix, AckOf(id));
    KeyReaders.DocumentedKeys(prefix, CloseOf(id));
  }

  lemma GoKeysInjective(prefix: string)
    ensures Injective(GoKeys(prefix))
  {
    forall a: KeyId, b: KeyId | PlainId(a) && PlainId(b) && GoKeys(prefix)(a) == GoKeys(prefix)(b) ensures a == b {
      KeysInjective(prefix, a, b);
    }
  }

  /** The world after a run from any store, with no channel open at the start. */
  ghost predicate After(prefix: string, strong: bool, store: Store, labels: seq<Label>, w: World) {
    WorldRun(GoKeys(prefix), strong, World(store, map[]), labels) == Some(w)
  }

  lemma Mail(prefix: string, strong: bool, store: Store, labels: seq<Label>, w: World, id: ChanId)
      returns (mail: Mailbox)
    requires After(prefix, strong, store, labels, w) && id in w.chans
    ensures Refines(GoKeys(prefix), strong, w.store, id, w.chans[id], mail)
  {
    GoKeysInjective(prefix);
    WorldRefinesChannels(GoKeys(prefix), strong, store, labels);
    mail :| Refines(GoKeys(prefix), strong, w.store, id, w.chans[id], mail);
  }

  /**
   Whatever else is in the store, however many sessions run, and whatever the interleaving: what each
   receiver has written is a prefix of what its sender took, also when reads miss or are stale.
   */
  lemma EveryStreamIsAPrefix(prefix: string, strong: bool, store: Store, labels: seq<Label>, w: World, id: ChanId)
    requires After(prefix, strong, store, labels, w) && id in w.chans
    ensures w.chans[id].rcv.written <= w.chans[id].snd.taken
  {
    var mail := Mail(prefix, strong, store, labels, w, id);
    WrittenIsPrefix(w.chans[id].cfg, strong, ChanOf(w.chans[id], mail));
  }

  /** No data key is ever PUT twice, and an object found under one always authenticates as that chunk. */
  lemma DataKeysWrittenOnce(prefix: string, strong: bool, store: Store, labels: seq<Label>, w: World, id: ChanId,
                            n: nat)
    requires After(prefix, strong, store, labels, w) && id in w.chans
    ensures var chunks := w.chans[id].snd.chunks;
            Versions(w.store, GoKeys(prefix)(DataOf(id, n))) ==
            if n < |chunks| then [SealedChunk(id, n, chunks[n])] else []
  {
    var mail := Mail(prefix, strong, store, labels, w, id);
    DataObjects(w.chans[id].cfg, strong, ChanOf(w.chans[id], mail));
  }

  lemma NewestAck(key: KeyId -> string, store: Store, id: ChanId, mail: Mailbox, stored: nat)
    requires Shows(key, store, id, mail)
    requires var vs := Versions(store, key(AckOf(id)));
             if vs == [] then stored == 0 else vs[|vs| - 1] == SealedAck(id, stored)
    ensures stored == StoredAck(mail)
  {
  }

  /** The ACK a sender caches, the newest ACK object under its key and both sequence numbers stay in order. */
  lemma AckObjectsInOrder(prefix: string, strong: bool, store: Store, labels: seq<Label>, w: World, id: ChanId,
                          stored: nat)
    requires After(prefix, strong, store, labels, w) && id in w.chans
    requires var vs := Versions(w.store, GoKeys(prefix)(AckOf(id)));
             if vs == [] then stored == 0 else vs[|vs| - 1] == SealedAck(id, stored)
    ensures w.chans[id].snd.acked <= stored <= w.chans[id].rcv.seqNo <= w.chans[id].snd.seqNo
    ensures w.chans[id].cfg.sendWindow > 0 ==>
              w.chans[id].snd.seqNo <= w.chans[id].snd.acked + w.chans[id].cfg.sendWindow
  {
    var mail := Mail(prefix, strong, store, labels, w, id);
    NewestAck(GoKeys(prefix), w.store, id, mail, stored);
    SequenceOrder(w.chans[id].cfg, strong, ChanOf(w.chans[id], mail));
  }

  /**
   Over a strongly consistent store a receiver that saw its peer's close has everything iff no PUT followed
   its last miss.
   */
  lemma CleanEndIff(prefix: string, store: Store, labels: seq<Label>, w: World, id: ChanId)
    requires After(prefix, true, store, labels, w) && id in w.chans && w.chans[id].rcv.pc == Stopped(PeerClosed)
    ensures w.chans[id].rcv.written == Flatten(w.chans[id].snd.chunks) <==>
              w.chans[id].missedAt == |w.chans[id].snd.chunks|
  {
    var mail := Mail(prefix, true, store, labels, w, id);
    CloseMarker.DeliveredIff(w.chans[id].cfg, ChanOf(w.chans[id], mail));
  }
}
