/**
 The server loop: it scans for open requests, admits each session id at most once at a time, and runs a
 worker for it under a semaphore.  Workers, clients and the loop interleave at every store request and
 at every use of the in-flight table and the semaphore.  A scan may return any list of keys, however stale.
 */
module Admission {
  import opened Common
  import KeyReaders
  import Polling
  import opened KeyLayout

  /** An open request; `valid` and `negotiable` are the server's verdicts on it. */
  datatype Request = Request(valid: bool, negotiable: bool)

  /** Where a worker is in `handleSession`, or, when `Leaving`, before it takes its id out of the table. */
  datatype WorkerPc =
    | Fetching | RejectInvalid | DeleteInvalid | DeleteOpen(negotiable: bool) | Dialing
    | Refusing | Accepting | Streaming | Leaving

  datatype Worker = Worker(id: string, pc: WorkerPc)

  datatype MainPc = Scanning | Going(keys: seq<string>) | Holding(id: string, rest: seq<string>)

  /**
   What has happened to one session id: requests PUT, and those of them that the server would dial for; requests
   fetched, and those of them; answers PUT; answers to invalid requests, and the DELETEs after them; DELETEs of
   valid requests, and those of them that did not take effect; dials, and those that connected; answers of
   acceptance that were tried, and those that were stored.
   */
  datatype Tally = Tally(
    puts: nat, good: nat, fetched: nat, goodFetched: nat, answered: nat, rejections: nat, cleared: nat,
    deletes: nat, undeleted: nat, dials: nat, connected: nat, attempts: nat, accepts: nat)

  const NO_TALLY := Tally(0, 0, 0, 0, 0, 0, 0, 0, 0, 0, 0, 0, 0)

  /** The open requests in the store, and the tallies. */
  datatype Book = Book(opens: map<string, Request>, tallies: map<string, Tally>)

  /** One look at a listed key: its session id, and whether that was in flight. */
  datatype Look = Look(key: string, id: string, busy: bool)

  /**
   The history of the loop: the keys listed, the looks at them, the ids of the workers started, how many there
   were when the latest pass began, and for each pass that ended whether it started any.
   */
  datatype Trace = Trace(listed: seq<string>, looks: seq<Look>, spawns: seq<string>, mark: nat, passes: seq<bool>)

  /** `held` semaphore tokens are out; `releasing` workers are out of the table but have yet to return theirs. */
  datatype State = State(
    main: MainPc, inFlight: set<string>, held: nat, workers: map<nat, Worker>, releasing: nat, book: Book, trace: Trace)

  /** `deletesWork` says that a DELETE always takes effect; `idOf` takes the session id out of a listed key. */
  datatype Config = Config(maxSessions: int, deletesWork: bool, idOf: string -> string)

  function Capacity(cfg: Config): (n: nat)
    ensures n >= 1 && n == if cfg.maxSessions < 1 then 1 else cfg.maxSessions
  {
    Max(1, cfg.maxSessions)
  }

  function Of(b: Book, id: string): Tally { if id in b.tallies then b.tallies[id] else NO_TALLY }

  function Stored(b: Book, id: string): Option<Request> {
    if id in b.opens then Some(b.opens[id]) else None
  }

  /** Would the server dial for it? */
  predicate Good(request: Request) { request.valid && request.negotiable }

  function Units(yes: bool): nat { if yes then 1 else 0 }

  /** The requests already in the store when the server starts count as PUT once. */
  function Start(opens: map<string, Request>): State {
    var tallies := map id | id in opens :: NO_TALLY.(puts := 1, good := Units(Good(opens[id])));
    State(Scanning, {}, 0, map[], 0, Book(opens, tallies), Trace([], [], [], 0, []))
  }

  datatype Label =
    | Listed(keys: seq<string>)
    | Consider
    | Acquire
    | EndPass
    | Work(worker: nat, ok: bool)
    | Release
    | ClientPut(id: string, request: Request)

  predicate IsMain(l: Label) { l.Listed? || l.Consider? || l.Acquire? || l.EndPass? }

  /** The next place of a worker that is not leaving and whose current action succeeds or fails. */
  function Next(pc: WorkerPc, ok: bool, request: Option<Request>): WorkerPc {
    match pc
    case Fetching =>
      if !ok || request.None? then Leaving
      else if request.value.valid then DeleteOpen(request.value.negotiable) else RejectInvalid
    case RejectInvalid => DeleteInvalid
    case DeleteInvalid => Leaving
    case DeleteOpen(negotiable) => if negotiable then Dialing else Refusing
    case Dialing => if ok then Accepting else Refusing
    case Refusing => Leaving
    case Accepting => if ok then Streaming else Leaving
    case Streaming => Leaving
    case Leaving => Leaving
  }

  predicate Deletes(pc: WorkerPc) { pc.DeleteInvalid? || pc.DeleteOpen? }

  /** What a worker's action adds to the tally of its id. */
  function Tallied(t: Tally, pc: WorkerPc, ok: bool, stored: Option<Request>): Tally {
    match pc
    case Fetching =>
      t.(fetched := t.fetched + Units(ok && stored.Some?),
         goodFetched := t.goodFetched + Units(ok && stored.Some? && Good(stored.value)))
    case RejectInvalid => t.(answered := t.answered + 1, rejections := t.rejections + 1)
    case DeleteInvalid => t.(cleared := t.cleared + 1)
    case DeleteOpen(_) => t.(deletes := t.deletes + 1, undeleted := t.undeleted + Units(!ok))
    case Dialing => t.(dials := t.dials + 1, connected := t.connected + Units(ok))
    case Refusing => t.(answered := t.answered + 1)
    case Accepting => t.(answered := t.answered + 1, attempts := t.attempts + 1, accepts := t.accepts + Units(ok))
    case Streaming => t
    case Leaving => t
  }

  /** And what it does to the book. */
  function Recorded(b: Book, id: string, pc: WorkerPc, ok: bool): Book {
    Book(if Deletes(pc) && ok then b.opens - {id} else b.opens,
         b.tallies[id := Tallied(Of(b, id), pc, ok, Stored(b, id))])
  }

  function WorkStep(cfg: Config, s: State, w: nat, ok: bool): Option<State> {
    if w !in s.workers then None
    else
      var id, pc := s.workers[w].id, s.workers[w].pc;
      if Deletes(pc) && cfg.deletesWork && !ok then None
      else if pc.Leaving? then
        Some(s.(workers := s.workers - {w}, inFlight := s.inFlight - {id}, releasing := s.releasing + 1))
      else
        Some(s.(workers := s.workers[w := Worker(id, Next(pc, ok, Stored(s.book, id)))],
                book := Recorded(s.book, id, pc, ok)))
  }

  /** The loop looks at one listed key. */
  function Considered(s: State, key: string, id: string, rest: seq<string>): State {
    var looked := s.trace.(looks := s.trace.looks + [Look(key, id, id in s.inFlight)]);
    if id == "" || id in s.inFlight then s.(main := Going(rest), trace := looked)
    else s.(main := Holding(id, rest), inFlight := s.inFlight + {id}, trace := looked)
  }

  /** It starts a worker. */
  function Started(s: State, id: string, rest: seq<string>): State {
    s.(main := Going(rest), held := s.held + 1,
       workers := s.workers[|s.trace.spawns| := Worker(id, Fetching)],
       trace := s.trace.(spawns := s.trace.spawns + [id]))
  }

  /** A pass begins with a listing and ends when all of it has been looked at. */
  function Begun(t: Trace, keys: seq<string>): Trace { t.(listed := t.listed + keys, mark := |t.spawns|) }

  function Passed(t: Trace): Trace { t.(passes := t.passes + [|t.spawns| > t.mark]) }

  function MainStep(cfg: Config, s: State, l: Label): Option<State> {
    match (l, s.main)
    case (Listed(keys), Scanning) => Some(s.(main := Going(keys), trace := Begun(s.trace, keys)))
    case (Consider, Going(keys)) =>
      if keys == [] then None else Some(Considered(s, keys[0], cfg.idOf(keys[0]), keys[1..]))
    case (Acquire, Holding(id, rest)) => if s.held >= Capacity(cfg) then None else Some(Started(s, id, rest))
    case (EndPass, Going(keys)) =>
      if keys == [] then Some(s.(main := Scanning, trace := Passed(s.trace))) else None
    case _ => None
  }

  /** A client PUTs an open request. */
  function Requested(b: Book, id: string, request: Request): Book {
    var t := Of(b, id);
    Book(b.opens[id := request],
         b.tallies[id := t.(puts := t.puts + 1, good := t.good + Units(Good(request)))])
  }

  function Step(cfg: Config, s: State, l: Label): Option<State> {
    match l
    case Work(w, ok) => WorkStep(cfg, s, w, ok)
    case Release =>
      if s.releasing == 0 || s.held == 0 then None else Some(s.(releasing := s.releasing - 1, held := s.held - 1))
    case ClientPut(id, request) => Some(s.(book := Requested(s.book, id, request)))
    case _ => MainStep(cfg, s, l)
  }

  function Run(cfg: Config, s: State, labels: seq<Label>): Option<State> {
    if labels == [] then Some(s)
    else
      match Run(cfg, s, labels[..|labels| - 1])
      case None => None
      case Some(t) => Step(cfg, t, labels[|labels| - 1])
  }

  ghost predicate Reachable(cfg: Config, s: State) {
    exists opens: map<string, Request>, labels: seq<Label> :: Run(cfg, Start(opens), labels) == Some(s)
  }

  // ---------------------------------------------------------------- who is in flight

  ghost predicate Exclusive(s: State) {
    && (forall w :: w in s.workers ==>
          w < |s.trace.spawns| && s.workers[w].id == s.trace.spawns[w] && s.workers[w].id in s.inFlight)
    && (forall w, v :: w in s.workers && v in s.workers && w != v ==> s.workers[w].id != s.workers[v].id)
    && (s.main.Holding? ==> s.main.id in s.inFlight && forall w :: w in s.workers ==> s.workers[w].id != s.main.id)
  }

  ghost predicate Bounded(cfg: Config, s: State) {
    && |s.workers| + s.releasing == s.held <= Capacity(cfg)
    && |s.inFlight| == |s.workers| + if s.main.Holding? then 1 else 0
  }

  /** Dials are paid for by requests worth one, or by DELETEs that failed; each is preceded by a DELETE. */
  ghost predicate Paid(deletesWork: bool, t: Tally, stored: Option<Request>) {
    && t.good <= t.puts
    && t.dials + Units(stored.Some? && Good(stored.value)) <= t.good + t.undeleted
    && t.accepts <= t.attempts <= t.connected <= t.dials <= t.deletes
    && t.cleared <= t.rejections && t.undeleted <= t.deletes
    && (deletesWork ==> t.undeleted == 0)
  }

  /** Has the worker fetched a request that it has yet to answer? */
  predicate Owes(pc: WorkerPc) {
    pc.RejectInvalid? || pc.DeleteOpen? || pc.Dialing? || pc.Refusing? || pc.Accepting?
  }

  /**
   The accounts of an id of which a worker is at `pc`, or of which there is none when `pc` is None: each request
   fetched gets one answer; an invalid one is rejected and then deleted, a valid one deleted; one that is
   negotiable too is dialled for; and each dial that connects is answered with an acceptance.
   */
  ghost predicate Balanced(t: Tally, pc: Option<WorkerPc>) {
    var at := if pc.Some? then pc.value else Fetching;
    && t.fetched == t.answered + Units(Owes(at))
    && t.fetched == t.rejections + t.deletes + Units(at.RejectInvalid? || at.DeleteOpen?)
    && t.rejections == t.cleared + Units(at.DeleteInvalid?)
    && t.goodFetched == t.dials + Units(at == DeleteOpen(true) || at.Dialing?)
    && t.connected == t.attempts + Units(at.Accepting?)
  }

  /** The worker's next action is paid for, and its are the only open accounts of its id. */
  ghost predicate WorkerPaid(t: Tally, stored: Option<Request>, pc: WorkerPc) {
    && (pc == DeleteOpen(true) ==> t.dials + 1 <= t.good + t.undeleted && t.dials <= t.deletes)
    && (pc.Dialing? ==>
          t.dials + 1 + Units(stored.Some? && Good(stored.value)) <= t.good + t.undeleted && t.dials + 1 <= t.deletes)
    && Balanced(t, Some(pc))
  }

  ghost predicate AllPaid(deletesWork: bool, b: Book) {
    forall id :: Paid(deletesWork, Of(b, id), Stored(b, id))
  }

  ghost predicate WorkersPaid(workers: map<nat, Worker>, b: Book) {
    forall w :: w in workers ==> WorkerPaid(Of(b, workers[w].id), Stored(b, workers[w].id), workers[w].pc)
  }

  ghost predicate Idle(workers: map<nat, Worker>, id: string) {
    forall w :: w in workers ==> workers[w].id != id
  }

  /** Without a worker an id has no open account. */
  ghost predicate Settled(workers: map<nat, Worker>, b: Book) {
    forall id :: Idle(workers, id) ==> Balanced(Of(b, id), None)
  }

  /** The keys looked at. */
  ghost function Seen(looks: seq<Look>): seq<string> {
    if looks == [] then [] else Seen(looks[..|looks| - 1]) + [looks[|looks| - 1].key]
  }

  /** The ids that were let in: those that there is one for and that were not in flight. */
  ghost function LetIn(looks: seq<Look>): seq<string> {
    if looks == [] then []
    else
      var last := looks[|looks| - 1];
      LetIn(looks[..|looks| - 1]) + if last.id == "" || last.busy then [] else [last.id]
  }

  function Pending(main: MainPc): seq<string> {
    match main
    case Scanning => []
    case Going(keys) => keys
    case Holding(_, rest) => rest
  }

  /** All that was listed is looked at, in order, and a worker is started for each id let in. */
  ghost predicate Traced(cfg: Config, main: MainPc, t: Trace) {
    && Seen(t.looks) + Pending(main) == t.listed
    && LetIn(t.looks) == t.spawns + (if main.Holding? then [main.id] else [])
    && (forall i :: 0 <= i < |t.looks| ==> t.looks[i].id == cfg.idOf(t.looks[i].key))
  }

  // ------------------------------------------------ moves of the loop and of clients

  lemma MainKeepsExclusive(cfg: Config, s: State, l: Label)
    requires Exclusive(s) && MainStep(cfg, s, l).Some?
    ensures Exclusive(MainStep(cfg, s, l).value)
  {
  }

  lemma StartedBounded(cfg: Config, s: State, id: string, rest: seq<string>)
    requires Bounded(cfg, s) && |s.trace.spawns| !in s.workers && s.held < Capacity(cfg) && s.main.Holding?
    ensures Bounded(cfg, Started(s, id, rest))
  {
    MapAdd(s.workers, |s.trace.spawns|, Worker(id, Fetching));
  }

  lemma ConsideredBounded(cfg: Config, s: State, key: string, id: string, rest: seq<string>)
    requires Bounded(cfg, s) && s.main.Going?
    ensures Bounded(cfg, Considered(s, key, id, rest))
  {
    assert id !in s.inFlight ==> |s.inFlight + {id}| == |s.inFlight| + 1;
  }

  lemma MainKeepsBounded(cfg: Config, s: State, l: Label)
    requires Bounded(cfg, s) && |s.trace.spawns| !in s.workers && MainStep(cfg, s, l).Some?
    ensures Bounded(cfg, MainStep(cfg, s, l).value)
  {
    if l.Acquire? {
      StartedBounded(cfg, s, s.main.id, s.main.rest);
    } else if l.Consider? {
      ConsideredBounded(cfg, s, s.main.keys[0], cfg.idOf(s.main.keys[0]), s.main.keys[1..]);
    }
  }

  lemma LookMore(looks: seq<Look>, look: Look)
    ensures Seen(looks + [look]) == Seen(looks) + [look.key]
    ensures LetIn(looks + [look]) == LetIn(looks) + if look.id == "" || look.busy then [] else [look.id]
  {
    assert (looks + [look])[..|looks|] == looks;
  }

  lemma Shift(a: seq<string>, k: string, rest: seq<string>)
    ensures a + ([k] + rest) == a + [k] + rest
  {
  }

  lemma LookTraced(cfg: Config, t: Trace, look: Look, rest: seq<string>)
    requires Traced(cfg, Going([look.key] + rest), t) && look.id == cfg.idOf(look.key)
    ensures var main := if look.id == "" || look.busy then Going(rest) else Holding(look.id, rest);
            Traced(cfg, main, t.(looks := t.looks + [look]))
  {
    var looks := t.looks + [look];
    assert Seen(looks) + rest == t.listed by {
      LookMore(t.looks, look);
      Shift(Seen(t.looks), look.key, rest);
    }
    assert LetIn(looks) == t.spawns + if look.id == "" || look.busy then [] else [look.id] by {
      LookMore(t.looks, look);
    }
  }

  lemma StartedTraced(cfg: Config, s: State, id: string, rest: seq<string>)
    requires Traced(cfg, s.main, s.trace) && s.main == Holding(id, rest)
    ensures Traced(cfg, Started(s, id, rest).main, Started(s, id, rest).trace)
  {
  }

  lemma BegunTraced(cfg: Config, t: Trace, keys: seq<string>)
    requires Traced(cfg, Scanning, t)
    ensures Traced(cfg, Going(keys), Begun(t, keys))
  {
  }

  lemma MainKeepsTraced(cfg: Config, s: State, l: Label)
    requires Traced(cfg, s.main, s.trace) && MainStep(cfg, s, l).Some?
    ensures Traced(cfg, MainStep(cfg, s, l).value.main, MainStep(cfg, s, l).value.trace)
  {
    match l
    case Listed(keys) => BegunTraced(cfg, s.trace, keys);
    case Consider =>
      var key, rest := s.main.keys[0], s.main.keys[1..];
      assert s.main == Going([key] + rest);
      LookTraced(cfg, s.trace, Look(key, cfg.idOf(key), cfg.idOf(key) in s.inFlight), rest);
    case Acquire => StartedTraced(cfg, s, s.main.id, s.main.rest);
    case EndPass => assert Traced(cfg, Scanning, Passed(s.trace));
    case _ =>
  }

  /** A new worker finds no open account of its id. */
  lemma StartedWorkersPaid(s: State, id: string, rest: seq<string>)
    requires Idle(s.workers, id) && |s.trace.spawns| !in s.workers
    requires WorkersPaid(s.workers, s.book) && Settled(s.workers, s.book)
    ensures WorkersPaid(Started(s, id, rest).workers, s.book)
  {
    var after := Started(s, id, rest).workers;
    forall w | w in after ensures WorkerPaid(Of(s.book, after[w].id), Stored(s.book, after[w].id), after[w].pc) {
      if w == |s.trace.spawns| {
        assert Balanced(Of(s.book, id), None);
      } else {
        assert after[w] == s.workers[w];
      }
    }
  }

  lemma StartedSettled(s: State, id: string, rest: seq<string>)
    requires |s.trace.spawns| !in s.workers && Settled(s.workers, s.book)
    ensures Settled(Started(s, id, rest).workers, s.book)
  {
    var after := Started(s, id, rest).workers;
    forall x | Idle(after, x) ensures Balanced(Of(s.book, x), None) {
      forall w | w in s.workers ensures s.workers[w].id != x {
        assert w in after && after[w] == s.workers[w];
      }
      assert Idle(s.workers, x);
    }
  }

  lemma MainKeepsPaid(cfg: Config, s: State, l: Label)
    requires MainStep(cfg, s, l).Some? && Exclusive(s) && WorkersPaid(s.workers, s.book) && Settled(s.workers, s.book)
    ensures var t := MainStep(cfg, s, l).value;
            t.book == s.book && WorkersPaid(t.workers, s.book) && Settled(t.workers, s.book)
  {
    if l.Acquire? {
      assert Idle(s.workers, s.main.id);
      StartedWorkersPaid(s, s.main.id, s.main.rest);
      StartedSettled(s, s.main.id, s.main.rest);
    }
  }

  /** What a request changes in the book, and what it does not. */
  lemma RequestedOf(b: Book, id: string, request: Request, x: string)
    ensures var c, t := Requested(b, id, request), Of(b, id);
            if x == id then
              && Of(c, x) == t.(puts := t.puts + 1, good := t.good + Units(Good(request)))
              && Stored(c, x) == Some(request)
            else Of(c, x) == Of(b, x) && Stored(c, x) == Stored(b, x)
  {
  }

  lemma RequestPays(deletesWork: bool, t: Tally, stored: Option<Request>, request: Request)
    requires Paid(deletesWork, t, stored)
    ensures Paid(deletesWork, t.(puts := t.puts + 1, good := t.good + Units(Good(request))), Some(request))
  {
  }

  lemma RequestPaysWorker(t: Tally, stored: Option<Request>, pc: WorkerPc, request: Request)
    requires WorkerPaid(t, stored, pc)
    ensures WorkerPaid(t.(puts := t.puts + 1, good := t.good + Units(Good(request))), Some(request), pc)
  {
  }

  lemma RequestKeepsAllPaid(deletesWork: bool, b: Book, id: string, request: Request)
    requires AllPaid(deletesWork, b)
    ensures AllPaid(deletesWork, Requested(b, id, request))
  {
    forall x ensures Paid(deletesWork, Of(Requested(b, id, request), x), Stored(Requested(b, id, request), x)) {
      RequestedOf(b, id, request, x);
      assert Paid(deletesWork, Of(b, x), Stored(b, x));
      if x == id { RequestPays(deletesWork, Of(b, id), Stored(b, id), request); }
    }
  }

  lemma RequestKeepsWorkersPaid(workers: map<nat, Worker>, b: Book, id: string, request: Request)
    requires WorkersPaid(workers, b)
    ensures WorkersPaid(workers, Requested(b, id, request))
  {
    var c := Requested(b, id, request);
    forall w | w in workers ensures WorkerPaid(Of(c, workers[w].id), Stored(c, workers[w].id), workers[w].pc) {
      var x := workers[w].id;
      RequestedOf(b, id, request, x);
      assert WorkerPaid(Of(b, x), Stored(b, x), workers[w].pc);
      if x == id { RequestPaysWorker(Of(b, id), Stored(b, id), workers[w].pc, request); }
    }
  }

  lemma RequestKeepsSettled(workers: map<nat, Worker>, b: Book, id: string, request: Request)
    requires Settled(workers, b)
    ensures Settled(workers, Requested(b, id, request))
  {
    var c := Requested(b, id, request);
    forall x | Idle(workers, x) ensures Balanced(Of(c, x), None) { RequestedOf(b, id, request, x); }
  }

  // ------------------------------------------------ moves of a worker

  lemma WorkKeepsExclusive(cfg: Config, s: State, w: nat, ok: bool)
    requires Exclusive(s) && WorkStep(cfg, s, w, ok).Some?
    ensures Exclusive(WorkStep(cfg, s, w, ok).value)
  {
  }

  lemma WorkKeepsBounded(cfg: Config, s: State, w: nat, ok: bool)
    requires Exclusive(s) && Bounded(cfg, s) && WorkStep(cfg, s, w, ok).Some?
    ensures Bounded(cfg, WorkStep(cfg, s, w, ok).value)
  {
    var t := WorkStep(cfg, s, w, ok).value;
    if s.workers[w].pc.Leaving? { MapDrop(s.workers, w); } else { MapAdd(s.workers, w, t.workers[w]); }
  }

  /** A worker's action keeps the accounts. */
  lemma TalliedBalances(t: Tally, stored: Option<Request>, pc: WorkerPc, ok: bool)
    requires Balanced(t, Some(pc)) && !pc.Leaving?
    ensures Balanced(Tallied(t, pc, ok, stored), Some(Next(pc, ok, stored)))
  {
  }

  lemma TalliedStaysPaid(deletesWork: bool, t: Tally, stored: Option<Request>, pc: WorkerPc, ok: bool)
    requires Paid(deletesWork, t, stored) && WorkerPaid(t, stored, pc) && (Deletes(pc) && deletesWork ==> ok)
    ensures Paid(deletesWork, Tallied(t, pc, ok, stored), if Deletes(pc) && ok then None else stored)
  {
  }

  /** And it pays for its next one. */
  lemma TalliedPays(deletesWork: bool, t: Tally, stored: Option<Request>, pc: WorkerPc, ok: bool)
    requires Paid(deletesWork, t, stored) && WorkerPaid(t, stored, pc) && !pc.Leaving?
    requires Deletes(pc) && deletesWork ==> ok
    ensures var u, left := Tallied(t, pc, ok, stored), if Deletes(pc) && ok then None else stored;
            Paid(deletesWork, u, left) && WorkerPaid(u, left, Next(pc, ok, stored))
  {
    TalliedStaysPaid(deletesWork, t, stored, pc, ok);
    TalliedBalances(t, stored, pc, ok);
  }

  /** What a worker's action changes in the book, and what it does not. */
  lemma RecordedOf(b: Book, id: string, pc: WorkerPc, ok: bool, x: string)
    ensures var c := Recorded(b, id, pc, ok);
            if x == id then
              && Of(c, x) == Tallied(Of(b, id), pc, ok, Stored(b, id))
              && Stored(c, x) == if Deletes(pc) && ok then None else Stored(b, id)
            else Of(c, x) == Of(b, x) && Stored(c, x) == Stored(b, x)
  {
  }

  lemma WorkKeepsAllPaid(deletesWork: bool, b: Book, id: string, pc: WorkerPc, ok: bool)
    requires AllPaid(deletesWork, b) && WorkerPaid(Of(b, id), Stored(b, id), pc) && !pc.Leaving?
    requires Deletes(pc) && deletesWork ==> ok
    ensures AllPaid(deletesWork, Recorded(b, id, pc, ok))
  {
    var c := Recorded(b, id, pc, ok);
    forall x ensures Paid(deletesWork, Of(c, x), Stored(c, x)) {
      RecordedOf(b, id, pc, ok, x);
      assert Paid(deletesWork, Of(b, x), Stored(b, x));
      if x == id { TalliedPays(deletesWork, Of(b, id), Stored(b, id), pc, ok); }
    }
  }

  /** The other workers stay as they are, and so do their ids' entries. */
  lemma OthersStay(cfg: Config, s: State, w: nat, ok: bool, v: nat)
    requires Exclusive(s) && WorkStep(cfg, s, w, ok).Some? && v in s.workers && v != w
    ensures var t := WorkStep(cfg, s, w, ok).value;
            && v in t.workers && t.workers[v] == s.workers[v]
            && Of(t.book, s.workers[v].id) == Of(s.book, s.workers[v].id)
            && Stored(t.book, s.workers[v].id) == Stored(s.book, s.workers[v].id)
  {
    RecordedOf(s.book, s.workers[w].id, s.workers[w].pc, ok, s.workers[v].id);
  }

  lemma WorkKeepsWorkersPaid(cfg: Config, s: State, w: nat, ok: bool)
    requires Exclusive(s) && AllPaid(cfg.deletesWork, s.book) && WorkersPaid(s.workers, s.book)
    requires WorkStep(cfg, s, w, ok).Some?
    ensures var t := WorkStep(cfg, s, w, ok).value; WorkersPaid(t.workers, t.book)
  {
    var t := WorkStep(cfg, s, w, ok).value;
    var id, pc := s.workers[w].id, s.workers[w].pc;
    forall v | v in t.workers
      ensures WorkerPaid(Of(t.book, t.workers[v].id), Stored(t.book, t.workers[v].id), t.workers[v].pc)
    {
      assert WorkerPaid(Of(s.book, s.workers[v].id), Stored(s.book, s.workers[v].id), s.workers[v].pc);
      if v == w {
        assert Paid(cfg.deletesWork, Of(s.book, id), Stored(s.book, id));
        TalliedPays(cfg.deletesWork, Of(s.book, id), Stored(s.book, id), pc, ok);
        RecordedOf(s.book, id, pc, ok, id);
      } else {
        OthersStay(cfg, s, w, ok, v);
      }
    }
  }

  lemma WorkKeepsSettled(cfg: Config, s: State, w: nat, ok: bool)
    requires Exclusive(s) && WorkersPaid(s.workers, s.book) && Settled(s.workers, s.book)
    requires WorkStep(cfg, s, w, ok).Some?
    ensures var t := WorkStep(cfg, s, w, ok).value; Settled(t.workers, t.book)
  {
    var t := WorkStep(cfg, s, w, ok).value;
    var id := s.workers[w].id;
    forall x | Idle(t.workers, x) ensures Balanced(Of(t.book, x), None) {
      if x == id {
        assert WorkerPaid(Of(s.book, id), Stored(s.book, id), s.workers[w].pc);
        assert w !in t.workers;
      } else {
        RecordedOf(s.book, id, s.workers[w].pc, ok, x);
        forall v | v in s.workers ensures s.workers[v].id != x {
          if v != w { OthersStay(cfg, s, w, ok, v); }
        }
        assert Idle(s.workers, x);
      }
    }
  }

  ghost predicate Inv(cfg: Config, s: State) {
    && Exclusive(s) && Bounded(cfg, s) && Traced(cfg, s.main, s.trace)
    && AllPaid(cfg.deletesWork, s.book) && WorkersPaid(s.workers, s.book) && Settled(s.workers, s.book)
  }

  lemma InvStart(cfg: Config, opens: map<string, Request>)
    ensures Inv(cfg, Start(opens))
  {
  }

  lemma InvWork(cfg: Config, s: State, w: nat, ok: bool)
    requires Inv(cfg, s) && WorkStep(cfg, s, w, ok).Some?
    ensures Inv(cfg, WorkStep(cfg, s, w, ok).value)
  {
    var t := WorkStep(cfg, s, w, ok).value;
    assert t.main == s.main && t.trace == s.trace;
    assert Exclusive(t) by { WorkKeepsExclusive(cfg, s, w, ok); }
    assert Bounded(cfg, t) by { WorkKeepsBounded(cfg, s, w, ok); }
    assert WorkersPaid(t.workers, t.book) by { WorkKeepsWorkersPaid(cfg, s, w, ok); }
    assert Settled(t.workers, t.book) by { WorkKeepsSettled(cfg, s, w, ok); }
    var id, pc := s.workers[w].id, s.workers[w].pc;
    assert AllPaid(cfg.deletesWork, t.book) by {
      assert WorkerPaid(Of(s.book, id), Stored(s.book, id), pc);
      if !pc.Leaving? { WorkKeepsAllPaid(cfg.deletesWork, s.book, id, pc, ok); }
    }
  }

  lemma InvMain(cfg: Config, s: State, l: Label)
    requires Inv(cfg, s) && MainStep(cfg, s, l).Some?
    ensures Inv(cfg, MainStep(cfg, s, l).value)
  {
    var t := MainStep(cfg, s, l).value;
    assert Exclusive(t) by { MainKeepsExclusive(cfg, s, l); }
    assert Bounded(cfg, t) by { MainKeepsBounded(cfg, s, l); }
    assert Traced(cfg, t.main, t.trace) by { MainKeepsTraced(cfg, s, l); }
    MainKeepsPaid(cfg, s, l);
  }

  lemma InvRelease(cfg: Config, s: State)
    requires Inv(cfg, s) && Step(cfg, s, Release).Some?
    ensures Inv(cfg, Step(cfg, s, Release).value)
  {
    assert Step(cfg, s, Release).value.book == s.book;
  }

  lemma InvPut(cfg: Config, s: State, id: string, request: Request)
    requires Inv(cfg, s)
    ensures Inv(cfg, s.(book := Requested(s.book, id, request)))
  {
    var c := Requested(s.book, id, request);
    assert AllPaid(cfg.deletesWork, c) by { RequestKeepsAllPaid(cfg.deletesWork, s.book, id, request); }
    assert WorkersPaid(s.workers, c) by { RequestKeepsWorkersPaid(s.workers, s.book, id, request); }
    assert Settled(s.workers, c) by { RequestKeepsSettled(s.workers, s.book, id, request); }
  }

  lemma InvStep(cfg: Config, s: State, l: Label)
    requires Inv(cfg, s) && Step(cfg, s, l).Some?
    ensures Inv(cfg, Step(cfg, s, l).value)
  {
    match l {
      case Work(w, ok) => InvWork(cfg, s, w, ok);
      case Release => InvRelease(cfg, s);
      case ClientPut(id, request) => InvPut(cfg, s, id, request);
      case _ => InvMain(cfg, s, l);
    }
  }

  lemma {:induction false} InvRun(cfg: Config, s: State, labels: seq<Label>)
    requires Inv(cfg, s) && Run(cfg, s, labels).Some?
    ensures Inv(cfg, Run(cfg, s, labels).value)
  {
    if labels != [] {
      var front := labels[..|labels| - 1];
      InvRun(cfg, s, front);
      InvStep(cfg, Run(cfg, s, front).value, labels[|labels| - 1]);
    }
  }

  lemma ReachableInv(cfg: Config, s: State)
    requires Reachable(cfg, s)
    ensures Inv(cfg, s)
  {
    var opens: map<string, Request>, labels: seq<Label> :| Run(cfg, Start(opens), labels) == Some(s);
    InvStart(cfg, opens);
    InvRun(cfg, Start(opens), labels);
  }

  // ---------------------------------------------------------------- what the loop promises

  /** No session id is worked on twice at the same time. */
  lemma OneWorkerPerSession(cfg: Config, s: State, w: nat, v: nat)
    requires Reachable(cfg, s) && w in s.workers && v in s.workers && w != v
    ensures s.workers[w].id != s.workers[v].id
  {
    ReachableInv(cfg, s);
  }

  /** The semaphore bounds the workers, and the in-flight table runs ahead of it by at most one. */
  lemma SessionsBounded(cfg: Config, s: State)
    requires Reachable(cfg, s)
    ensures |s.workers| <= s.held <= Capacity(cfg)
    ensures |s.inFlight| <= s.held + 1
    ensures forall w :: w in s.workers ==> s.workers[w].id in s.inFlight
  {
    ReachableInv(cfg, s);
  }

  /**
   In every run, however stale the scans: per id, dials are at most the valid and negotiable requests PUT and the
   DELETEs that failed; each comes after a DELETE; and answers are accepted for connected dials only.
   */
  lemma DialsPerRequest(cfg: Config, s: State, id: string)
    requires Reachable(cfg, s)
    ensures var t := Of(s.book, id);
            && t.dials <= t.good + t.undeleted && t.good <= t.puts
            && t.accepts <= t.connected <= t.dials <= t.deletes
  {
    ReachableInv(cfg, s);
    assert Paid(cfg.deletesWork, Of(s.book, id), Stored(s.book, id));
  }

  /** With working DELETEs each valid and negotiable request leads to at most one dial and one accepted answer. */
  lemma OneDialPerRequest(cfg: Config, s: State, id: string)
    requires cfg.deletesWork && Reachable(cfg, s)
    ensures var t := Of(s.book, id); t.accepts <= t.dials <= t.good <= t.puts
  {
    ReachableInv(cfg, s);
    assert Paid(cfg.deletesWork, Of(s.book, id), Stored(s.book, id));
  }

  /**
   By the time an id leaves the in-flight table every request of it that a worker fetched has been answered exactly
   once; the invalid ones were rejected and deleted, the valid ones deleted, those among them that were negotiable
   dialled for, and exactly the dials that connected were answered with an acceptance.
   */
  lemma OneAnswerPerRequest(cfg: Config, s: State, id: string)
    requires Reachable(cfg, s) && id !in s.inFlight
    ensures var t := Of(s.book, id);
            && t.fetched == t.answered == t.rejections + t.deletes
            && t.cleared == t.rejections && t.dials == t.goodFetched && t.attempts == t.connected
  {
    ReachableInv(cfg, s);
    assert Idle(s.workers, id);
  }

  /**
   Between two passes the loop has looked at every key listed so far, once and in order, and has started a worker
   for each session id among them that was not in flight then.
   */
  lemma AllListedConsidered(cfg: Config, s: State)
    requires Reachable(cfg, s) && s.main == Scanning
    ensures Seen(s.trace.looks) == s.trace.listed && LetIn(s.trace.looks) == s.trace.spawns
  {
    ReachableInv(cfg, s);
  }

  lemma Then(cfg: Config, opens: map<string, Request>, labels: seq<Label>, s: State, l: Label)
      returns (more: seq<Label>, t: State)
    requires Run(cfg, Start(opens), labels) == Some(s) && Step(cfg, s, l).Some?
    ensures Run(cfg, Start(opens), more) == Some(t) && t == Step(cfg, s, l).value
  {
    more := labels + [l];
    t := Step(cfg, s, l).value;
    assert more[..|labels|] == labels;
  }

  /** The loop admits one listed id when nothing else is going on. */
  lemma AdmitAlone(cfg: Config, opens: map<string, Request>, labels: seq<Label>, s: State, key: string)
      returns (more: seq<Label>, t: State)
    requires Run(cfg, Start(opens), labels) == Some(s)
    requires s.main == Scanning && s.inFlight == {} && s.held == 0 && s.releasing == 0 && s.workers == map[]
    requires cfg.idOf(key) != ""
    ensures Run(cfg, Start(opens), more) == Some(t)
    ensures t == s.(inFlight := {cfg.idOf(key)}, held := 1, trace := t.trace,
                   workers := map[|s.trace.spawns| := Worker(cfg.idOf(key), Fetching)])
  {
    assert [key][1..] == [];
    more, t := Then(cfg, opens, labels, s, Listed([key]));
    more, t := Then(cfg, opens, more, t, Consider);
    assert t == s.(main := Holding(cfg.idOf(key), []), inFlight := {cfg.idOf(key)}, trace := t.trace);
    more, t := Then(cfg, opens, more, t, Acquire);
    more, t := Then(cfg, opens, more, t, EndPass);
  }

  /** A lone worker moves on. */
  lemma LoneMove(cfg: Config, opens: map<string, Request>, labels: seq<Label>, s: State, w: nat, ok: bool)
      returns (more: seq<Label>, t: State)
    requires Run(cfg, Start(opens), labels) == Some(s) && s.workers.Keys == {w} && !s.workers[w].pc.Leaving?
    requires !ok ==> !cfg.deletesWork
    ensures Run(cfg, Start(opens), more) == Some(t) && t == WorkStep(cfg, s, w, ok).value
    ensures t.workers.Keys == {w} && t == s.(workers := t.workers, book := t.book)
  {
    more, t := Then(cfg, opens, labels, s, Work(w, ok));
  }

  /** A lone worker whose DELETE fails dials, is accepted and leaves the request behind. */
  lemma WorkAlone(cfg: Config, opens: map<string, Request>, labels: seq<Label>, s: State, w: nat, id: string)
      returns (more: seq<Label>, t: State)
    requires !cfg.deletesWork && Run(cfg, Start(opens), labels) == Some(s)
    requires s.workers == map[w := Worker(id, Fetching)] && s.held == 1 && s.releasing == 0 && s.inFlight == {id}
    requires Stored(s.book, id) == Some(Request(true, true))
    ensures Run(cfg, Start(opens), more) == Some(t)
    ensures t == s.(inFlight := {}, held := 0, workers := map[], book := t.book) && t.book.opens == s.book.opens
    ensures Of(t.book, id).dials == Of(s.book, id).dials + 1 && Of(t.book, id).puts == Of(s.book, id).puts
  {
    more, t := LoneMove(cfg, opens, labels, s, w, true);
    assert t.workers[w] == Worker(id, DeleteOpen(true));
    more, t := LoneMove(cfg, opens, more, t, w, false);
    assert t.workers[w] == Worker(id, Dialing);
    more, t := LoneMove(cfg, opens, more, t, w, true);
    assert t.workers[w] == Worker(id, Accepting);
    more, t := LoneMove(cfg, opens, more, t, w, true);
    assert t.workers[w] == Worker(id, Streaming);
    more, t := FinishAlone(cfg, opens, more, t, w, id);
  }

  lemma FinishAlone(cfg: Config, opens: map<string, Request>, labels: seq<Label>, s: State, w: nat, id: string)
      returns (more: seq<Label>, t: State)
    requires Run(cfg, Start(opens), labels) == Some(s)
    requires s.workers.Keys == {w} && s.workers[w] == Worker(id, Streaming)
    requires s.held == 1 && s.releasing == 0 && s.inFlight == {id}
    ensures Run(cfg, Start(opens), more) == Some(t)
    ensures t == s.(inFlight := {}, held := 0, workers := map[], book := t.book) && t.book.opens == s.book.opens
    ensures Of(t.book, id) == Of(s.book, id)
  {
    more, t := LoneMove(cfg, opens, labels, s, w, true);
    assert t.workers[w] == Worker(id, Leaving);
    var left := t.workers - {w};
    assert left.Keys == {} && left == map[];
    more, t := Then(cfg, opens, more, t, Work(w, true));
    assert {id} - {id} == {};
    assert t == s.(workers := map[], inFlight := {}, releasing := 1, book := t.book);
    more, t := Then(cfg, opens, more, t, Release);
  }

  /** At most one dial per request, in every run and for every id, if and only if DELETEs take effect. */
  lemma OneDialIffDeletesWork(cfg: Config, key: string)
    requires cfg.idOf(key) != ""
    ensures cfg.deletesWork <==>
              forall s: State, id: string :: Reachable(cfg, s) ==> Of(s.book, id).dials <= Of(s.book, id).puts
  {
    if cfg.deletesWork {
      forall s: State, id: string | Reachable(cfg, s) ensures Of(s.book, id).dials <= Of(s.book, id).puts {
        OneDialPerRequest(cfg, s, id);
      }
    } else {
      var id := cfg.idOf(key);
      var opens := map[id := Request(true, true)];
      var labels, s := AdmitAlone(cfg, opens, [], Start(opens), key);
      labels, s := WorkAlone(cfg, opens, labels, s, 0, id);
      var n := |s.trace.spawns|;
      labels, s := AdmitAlone(cfg, opens, labels, s, key);
      labels, s := WorkAlone(cfg, opens, labels, s, n, id);
      assert Reachable(cfg, s);
      assert Of(s.book, id).dials == 2 && Of(s.book, id).puts == 1;
    }
  }

  // ---------------------------------------------------------------- the loop as written

  /** Every possible move leads from a state that `safe` accepts to one that it accepts. */
  ghost predicate Kept(cfg: Config, safe: State -> bool) {
    forall s: State, l: Label :: safe(s) && Step(cfg, s, l).Some? ==> safe(Step(cfg, s, l).value)
  }

  ghost function Reached(cfg: Config): State -> bool {
    (s: State) => Reachable(cfg, s)
  }

  lemma ReachableIsKept(cfg: Config)
    ensures Kept(cfg, Reached(cfg))
  {
    forall s: State, l: Label | Reachable(cfg, s) && Step(cfg, s, l).Some?
      ensures Reachable(cfg, Step(cfg, s, l).value)
    {
      var opens: map<string, Request>, labels: seq<Label> :| Run(cfg, Start(opens), labels) == Some(s);
      var more, t := Then(cfg, opens, labels, s, l);
    }
  }

  /**
   What the server loop works on.  Workers and clients move, as a schedule says, whenever the loop
   touches shared state; `listings` are what its scans return.  The loop never looks at `pool.main`.
   */
  class Server {
    const cfg: Config
    const pollMin: int
    const pollMax: int
    var pool: State
    var schedule: seq<seq<Label>>
    var listings: seq<seq<string>>
    /** The keys that scans have returned, the delays slept, and whether a scan has failed. */
    ghost var returned: seq<string>
    ghost var slept: seq<int>
    ghost var scanFailed: bool

    constructor (cfg: Config, pollMin: int, pollMax: int, opens: map<string, Request>, schedule: seq<seq<Label>>,
                 listings: seq<seq<string>>)
      ensures this.cfg == cfg && this.pollMin == pollMin && this.pollMax == pollMax && At(Scanning) == Start(opens)
      ensures returned == [] && slept == [] && !scanFailed
    {
      this.cfg, this.pollMin, this.pollMax := cfg, pollMin, pollMax;
      this.pool, this.schedule, this.listings := Start(opens), schedule, listings;
      returned, slept, scanFailed := [], [], false;
    }

    /** The whole state when the loop is at `main`. */
    ghost function At(main: MainPc): State reads this { pool.(main := main) }

    method Interfere(ghost main: MainPc, ghost safe: State -> bool)
      requires Kept(cfg, safe) && safe(At(main))
      modifies `pool, `schedule
      ensures safe(At(main)) && pool.trace == old(pool.trace)
      ensures |schedule| < old(|schedule|) || schedule == old(schedule) == []
    {
      if schedule != [] {
        var batch := schedule[0];
        schedule := schedule[1..];
        for i := 0 to |batch|
          invariant schedule == old(schedule)[1..] && safe(At(main)) && pool.trace == old(pool.trace)
        {
          if !IsMain(batch[i]) {
            var next := Step(cfg, pool, batch[i]);
            if next.Some? {
              OthersIgnoreMain(cfg, pool, batch[i], main);
              pool := next.value;
            }
          }
        }
      }
    }

    /** A scan for open requests; None is a failed LIST. */
    method ListOpenKeys() returns (keys: Option<seq<string>>)
      modifies `listings, `returned, `scanFailed
      ensures returned == if keys.None? then old(returned) else old(returned) + keys.value
      ensures scanFailed == (old(scanFailed) || keys.None?)
    {
      keys := None;
      scanFailed := scanFailed || listings == [];
      if listings != [] {
        keys, listings, returned := Some(listings[0]), listings[1..], returned + listings[0];
      }
    }

    /** Sleeps for the delay; false when the context is done. */
    method Sleep(delay: int) returns (alive: bool)
      modifies `slept
      ensures slept == old(slept) + [delay] && (alive <==> schedule != [])
    {
      slept := slept + [delay];
      alive := schedule != [];
    }
  }

  lemma OthersIgnoreMain(cfg: Config, s: State, l: Label, main: MainPc)
    requires !IsMain(l) && Step(cfg, s, l).Some?
    ensures Step(cfg, s.(main := main), l) == Some(Step(cfg, s, l).value.(main := main))
    ensures Step(cfg, s, l).value.trace == s.trace
  {
  }

  lemma MoveMain(cfg: Config, safe: State -> bool, s: State, l: Label)
    requires Kept(cfg, safe) && safe(s) && IsMain(l) && MainStep(cfg, s, l).Some?
    ensures safe(MainStep(cfg, s, l).value)
  {
    assert Step(cfg, s, l) == MainStep(cfg, s, l);
  }

  /** Waits for a semaphore token and starts the worker; false when nobody is left to return one. */
  method StartWorker(server: Server, id: string, ghost rest: seq<string>, ghost safe: State -> bool)
      returns (started: bool)
    requires Kept(server.cfg, safe) && safe(server.At(Holding(id, rest)))
    modifies server`pool, server`schedule
    ensures safe(server.At(if started then Going(rest) else Holding(id, rest)))
    ensures |server.schedule| <= old(|server.schedule|)
    ensures !started ==> server.schedule == [] && server.pool.held >= Capacity(server.cfg)
    ensures var t := old(server.pool.trace);
            server.pool.trace == if started then t.(spawns := t.spawns + [id]) else t
  {
    while server.pool.held >= Capacity(server.cfg)
      invariant safe(server.At(Holding(id, rest))) && |server.schedule| <= old(|server.schedule|)
      invariant server.pool.trace == old(server.pool.trace)
      decreases |server.schedule|
    {
      if server.schedule == [] { return false; }
      server.Interfere(Holding(id, rest), safe);
    }
    MoveMain(server.cfg, safe, server.At(Holding(id, rest)), Acquire);
    server.pool := Started(server.pool, id, []);
    return true;
  }

  /** The passes since the last one that started a worker. */
  ghost function Fruitless(passes: seq<bool>): nat {
    if passes == [] || passes[|passes| - 1] then 0 else Fruitless(passes[..|passes| - 1]) + 1
  }

  /** After each pass the loop slept for the delay due then. */
  ghost predicate Paced(slept: seq<int>, passes: seq<bool>, pollMin: int, pollMax: int) {
    |slept| == |passes| &&
    (passes != [] ==>
       && Paced(slept[..|slept| - 1], passes[..|passes| - 1], pollMin, pollMax)
       && slept[|slept| - 1] == Polling.DelayAt(Polling.Go, pollMin, pollMax, Fruitless(passes)))
  }

  ghost predicate Slept(server: Server)
    reads server
  {
    Paced(server.slept, server.pool.trace.passes, server.pollMin, server.pollMax)
  }

  /** The listings that the machine has seen are those that the scans returned. */
  ghost predicate Faithful(server: Server, safe: State -> bool, main: MainPc)
    reads server
  {
    safe(server.At(main)) && server.pool.trace.listed == server.returned && Slept(server)
  }

  /** One look at a listed key, and the worker if it is let in; false when it cannot be started. */
  method LookAt(server: Server, key: string, ghost rest: seq<string>, ghost safe: State -> bool)
      returns (alive: bool, started: nat)
    requires Kept(server.cfg, safe) && Faithful(server, safe, Going([key] + rest))
    modifies server`pool, server`schedule
    ensures alive ==> Faithful(server, safe, Going(rest))
    ensures !alive ==> Faithful(server, safe, Holding(server.cfg.idOf(key), rest)) && server.schedule == []
    ensures |server.schedule| <= old(|server.schedule|)
    ensures var t, u := old(server.pool.trace), server.pool.trace;
            u.mark == t.mark && u.passes == t.passes && |u.spawns| == |t.spawns| + started
  {
    server.Interfere(Going([key] + rest), safe);
    var id := server.cfg.idOf(key);
    MoveMain(server.cfg, safe, server.At(Going([key] + rest)), Consider);
    assert ([key] + rest)[1..] == rest;
    var free := id != "" && id !in server.pool.inFlight;
    server.pool := Considered(server.pool, key, id, []);
    alive, started := true, 0;
    if free {
      alive := StartWorker(server, id, rest, safe);
      started := if alive then 1 else 0;
    }
  }

  lemma FruitlessMore(passes: seq<bool>, pass: bool)
    ensures Fruitless(passes + [pass]) == if pass then 0 else Fruitless(passes) + 1
  {
    assert (passes + [pass])[..|passes|] == passes;
  }

  lemma PacedMore(slept: seq<int>, passes: seq<bool>, pollMin: int, pollMax: int, pass: bool, delay: int)
    requires Paced(slept, passes, pollMin, pollMax)
    requires delay == Polling.DelayAt(Polling.Go, pollMin, pollMax, Fruitless(passes + [pass]))
    ensures Paced(slept + [delay], passes + [pass], pollMin, pollMax)
  {
    assert (passes + [pass])[..|passes + [pass]| - 1] == passes;
    assert (slept + [delay])[..|slept + [delay]| - 1] == slept;
  }

  /** One pass of the loop over a listing; false when it stops in the middle of it. */
  method Pass(server: Server, keys: seq<string>, ghost safe: State -> bool)
      returns (alive: bool, started: nat, ghost main: MainPc)
    requires Kept(server.cfg, safe) && Faithful(server, safe, Going(keys))
    modifies server`pool, server`schedule
    ensures Faithful(server, safe, main) && |server.schedule| <= old(|server.schedule|)
    ensures if alive then main == Going([]) else server.schedule == []
    ensures var t, u := old(server.pool.trace), server.pool.trace;
            u.mark == t.mark && u.passes == t.passes && |u.spawns| == |t.spawns| + started
  {
    started := 0;
    var i := 0;
    assert keys[0..] == keys;
    while i < |keys|
      invariant 0 <= i <= |keys| && Faithful(server, safe, Going(keys[i..]))
      invariant |server.schedule| <= old(|server.schedule|)
      invariant var t, u := old(server.pool.trace), server.pool.trace;
                u.mark == t.mark && u.passes == t.passes && |u.spawns| == |t.spawns| + started
    {
      assert keys[i..] == [keys[i]] + keys[i + 1..];
      var more;
      alive, more := LookAt(server, keys[i], keys[i + 1..], safe);
      started := started + more;
      if !alive { return false, started, Holding(server.cfg.idOf(keys[i]), keys[i + 1..]); }
      i := i + 1;
    }
    assert keys[|keys|..] == [];
    return true, started, Going([]);
  }

  /** The end of a pass: the next delay, and the sleep. */
  method EndOfPass(server: Server, started: nat, delay0: int, ghost safe: State -> bool)
      returns (alive: bool, delay: int)
    requires Kept(server.cfg, safe) && Faithful(server, safe, Going([]))
    requires started == |server.pool.trace.spawns| - server.pool.trace.mark
    requires delay0 == DelayDue(server)
    modifies server`pool, server`slept
    ensures Faithful(server, safe, Scanning) && delay == DelayDue(server) && (alive <==> server.schedule != [])
  {
    MoveMain(server.cfg, safe, server.At(Going([])), EndPass);
    FruitlessMore(server.pool.trace.passes, started > 0);
    delay := if started > 0 then server.pollMin else Polling.NextDelay(delay0, server.pollMax);
    PacedMore(server.slept, server.pool.trace.passes, server.pollMin, server.pollMax, started > 0, delay);
    server.pool := server.pool.(trace := Passed(server.pool.trace));
    alive := server.Sleep(delay);
  }

  ghost function DelayDue(server: Server): int
    reads server
  {
    Polling.DelayAt(Polling.Go, server.pollMin, server.pollMax, Fruitless(server.pool.trace.passes))
  }

  /**
   `Server.Run`: a run of the machine on the listings that its scans return, until one fails or the context is
   done; after each pass it sleeps for the delay that the fruitless passes before make due.
   */
  method ServerRun(server: Server, ghost safe: State -> bool) returns (ghost main: MainPc)
    requires Kept(server.cfg, safe) && Faithful(server, safe, Scanning) && server.pool.trace.passes == []
    modifies server
    ensures Faithful(server, safe, main)
    ensures server.scanFailed || server.schedule == []
    ensures main != Scanning ==> server.schedule == []
  {
    var delay := server.pollMin;
    while server.schedule != []
      invariant Faithful(server, safe, Scanning)
      invariant delay == DelayDue(server)
      decreases |server.schedule|
    {
      server.Interfere(Scanning, safe);
      var keys := server.ListOpenKeys();
      if keys.None? { return Scanning; }
      MoveMain(server.cfg, safe, server.At(Scanning), Listed(keys.value));
      server.pool := server.pool.(trace := Begun(server.pool.trace, keys.value));
      var alive, started, at := Pass(server, keys.value, safe);
      if !alive { return at; }
      alive, delay := EndOfPass(server, started, delay, safe);
      if !alive { return Scanning; }
    }
    return Scanning;
  }

  /**
   A server started on any store keeps its promises at whatever point its loop stops; and unless it stops for
   want of a semaphore token, every key that a scan returned has been looked at, and a worker was started for
   each session id among them that was not in flight then.
   */
  method Serve(server: Server, opens: map<string, Request>) returns (ghost main: MainPc)
    requires server.At(Scanning) == Start(opens) && server.returned == [] && server.slept == []
    modifies server
    ensures Reachable(server.cfg, server.At(main)) && Slept(server)
    ensures |server.pool.workers| <= server.pool.held <= Capacity(server.cfg)
    ensures |server.pool.inFlight| <= server.pool.held + 1
    ensures forall id ::
              var t := Of(server.pool.book, id);
              t.dials <= t.good + t.undeleted && (server.cfg.deletesWork ==> t.dials <= t.good)
    ensures server.scanFailed || server.schedule == []
    ensures main != Scanning ==> server.schedule == []
    ensures main == Scanning ==>
              && Seen(server.pool.trace.looks) == server.returned
              && LetIn(server.pool.trace.looks) == server.pool.trace.spawns
  {
    ReachableIsKept(server.cfg);
    assert Run(server.cfg, Start(opens), []) == Some(server.At(Scanning));
    main := ServerRun(server, Reached(server.cfg));
    SessionsBounded(server.cfg, server.At(main));
    forall id ensures var t := Of(server.pool.book, id);
                      t.dials <= t.good + t.undeleted && (server.cfg.deletesWork ==> t.dials <= t.good)
    {
      DialsPerRequest(server.cfg, server.At(main), id);
      if server.cfg.deletesWork { OneDialPerRequest(server.cfg, server.At(main), id); }
    }
    if main == Scanning { AllListedConsidered(server.cfg, server.At(main)); }
  }

  /** The server's own way of reading session ids off listed keys. */
  function SourceConfig(maxSessions: int, deletesWork: bool): Config {
    Config(maxSessions, deletesWork, KeyReaders.ListedSessionId)
  }

  lemma SourceOneDialIffDeletesWork(maxSessions: int, deletesWork: bool)
    ensures deletesWork <==>
      forall s: State, id: string :: Reachable(SourceConfig(maxSessions, deletesWork), s) ==>
        Of(s.book, id).dials <= Of(s.book, id).puts
  {
    KeyReaders.ListedIdIsSessionId("", "a");
    OneDialIffDeletesWork(SourceConfig(maxSessions, deletesWork), GoKey("", OpenKey("a")));
  }
}
