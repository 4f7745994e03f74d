/**
 Session statistics under interleaving.  Each update is a counter increment followed by a locked
 section, so other sessions, and a server-side sender that shares the object, can come in between.
 */
module Stats {
  import opened Common

  function FirstDataKey(sid: string, d: Direction): string { sid + "\0" + DirName(d) }

  lemma FirstDataKeyInjective(sid: string, d: Direction, sid': string, d': Direction)
    requires FirstDataKey(sid, d) == FirstDataKey(sid', d')
    ensures sid == sid' && d == d'
  {
    var k := FirstDataKey(sid, d);
    assert k[..|k| - 4] == sid && k[|k| - 3] == DirName(d)[0];
    assert k == FirstDataKey(sid', d') && k[..|k| - 4] == sid' && k[|k| - 3] == DirName(d')[0];
  }

  datatype Verdict = Completed | Failed | Rejected

  /** The counters and the tables of the statistics object; `accepted` is the source's count of opened sessions. */
  datatype Tally = Tally(
    started: nat, accepted: nat, rejected: nat, completed: nat, failed: nat,
    sessionStarts: map<string, int>, firstDataObserved: set<string>,
    timeToOpenResult: seq<int>, sessionDurations: seq<int>,
    timeToFirstC2S: seq<int>, timeToFirstS2C: seq<int>)

  const NO_TALLY := Tally(0, 0, 0, 0, 0, map[], {}, [], [], [], [])

  function StartCount(t: Tally): Tally { t.(started := t.started + 1) }

  function StartTable(t: Tally, sid: string, at: int): Tally { t.(sessionStarts := t.sessionStarts[sid := at]) }

  function OpenCounted(t: Tally): Tally { t.(accepted := t.accepted + 1) }

  function OpenTimed(t: Tally, d: int): Tally { t.(timeToOpenResult := t.timeToOpenResult + [d]) }

  function EndCount(t: Tally, v: Verdict): Tally {
    match v
    case Completed => t.(completed := t.completed + 1)
    case Failed => t.(failed := t.failed + 1)
    case Rejected => t.(rejected := t.rejected + 1)
  }

  function EndTable(t: Tally, sid: string, d: int, v: Verdict): Tally {
    t.(sessionStarts := t.sessionStarts - {sid},
       firstDataObserved := t.firstDataObserved - {FirstDataKey(sid, C2S), FirstDataKey(sid, S2C)},
       timeToOpenResult := if v == Rejected then t.timeToOpenResult + [d] else t.timeToOpenResult,
       sessionDurations := if v == Rejected then t.sessionDurations else t.sessionDurations + [d])
  }

  predicate Records(t: Tally, sid: string, d: Direction) {
    FirstDataKey(sid, d) !in t.firstDataObserved && sid in t.sessionStarts
  }

  function FirstData(t: Tally, sid: string, d: Direction, at: int): Tally {
    if !Records(t, sid, d) then t
    else
      var sample := at - t.sessionStarts[sid];
      var u := t.(firstDataObserved := t.firstDataObserved + {FirstDataKey(sid, d)});
      if d == C2S then u.(timeToFirstC2S := u.timeToFirstC2S + [sample])
      else u.(timeToFirstS2C := u.timeToFirstS2C + [sample])
  }

  class Stats {
    var started: nat
    var accepted: nat
    var rejected: nat
    var completed: nat
    var failed: nat
    var sessionStarts: map<string, int>
    var firstDataObserved: set<string>
    var timeToOpenResult: seq<int>
    var sessionDurations: seq<int>
    var timeToFirstC2S: seq<int>
    var timeToFirstS2C: seq<int>

    function Snapshot(): Tally reads this {
      Tally(started, accepted, rejected, completed, failed, sessionStarts, firstDataObserved,
            timeToOpenResult, sessionDurations, timeToFirstC2S, timeToFirstS2C)
    }

    constructor ()
      ensures Snapshot() == NO_TALLY
    {
      started, accepted, rejected, completed, failed := 0, 0, 0, 0, 0;
      sessionStarts, firstDataObserved := map[], {};
      timeToOpenResult, sessionDurations, timeToFirstC2S, timeToFirstS2C := [], [], [], [];
    }

    method StartSession(sid: string, at: int)
      modifies this
      ensures Snapshot() == StartTable(StartCount(old(Snapshot())), sid, at)
    {
      started := started + 1;
      sessionStarts := sessionStarts[sid := at];
    }

    method OpenSession(d: int)
      modifies this
      ensures Snapshot() == OpenTimed(OpenCounted(old(Snapshot())), d)
    {
      accepted := accepted + 1;
      timeToOpenResult := timeToOpenResult + [d];
    }

    method RejectSession(sid: string, d: int)
      modifies this
      ensures Snapshot() == EndTable(EndCount(old(Snapshot()), Rejected), sid, d, Rejected)
    {
      rejected := rejected + 1;
      timeToOpenResult := timeToOpenResult + [d];
      sessionStarts := sessionStarts - {sid};
      firstDataObserved := firstDataObserved - {FirstDataKey(sid, C2S)};
      firstDataObserved := firstDataObserved - {FirstDataKey(sid, S2C)};
    }

    method FinishSession(sid: string, d: int, ok: bool)
      modifies this
      ensures var v := if ok then Completed else Failed;
              Snapshot() == EndTable(EndCount(old(Snapshot()), v), sid, d, v)
    {
      if ok { completed := completed + 1; } else { failed := failed + 1; }
      sessionDurations := sessionDurations + [d];
      sessionStarts := sessionStarts - {sid};
      firstDataObserved := firstDataObserved - {FirstDataKey(sid, C2S)};
      firstDataObserved := firstDataObserved - {FirstDataKey(sid, S2C)};
    }

    method RecordFirstData(sid: string, d: Direction, at: int)
      modifies this
      ensures Snapshot() == FirstData(old(Snapshot()), sid, d, at)
    {
      var k := FirstDataKey(sid, d);
      if k in firstDataObserved { return; }
      if sid !in sessionStarts { return; }
      firstDataObserved := firstDataObserved + {k};
      match d {
        case C2S => timeToFirstC2S := timeToFirstC2S + [at - sessionStarts[sid]];
        case S2C => timeToFirstS2C := timeToFirstS2C + [at - sessionStarts[sid]];
      }
    }
  }

  // ---------------------------------------------------------------- interleaved sessions

  /** A started session: between the halves of its start, between those of its opening, or neither. */
  datatype Phase = Counting | Running | Opening

  /**
   `live` sessions have started and not yet been counted as ended; `ending` ones are counted but still
   in the tables; `done` ones are over.  `samples` counts first-data samples by session and direction.
   */
  datatype System = System(tally: Tally, live: map<string, Phase>, ending: map<string, Verdict>, done: set<string>,
                           samples: map<(string, Direction), nat>)

  const IDLE := System(NO_TALLY, map[], map[], {}, map[])

  datatype Event =
    | BeginCount(sid: string)
    | BeginTable(sid: string, at: int)
    | OpenCount(sid: string)
    | OpenTable(sid: string, d: int)
    | FinishCount(sid: string, verdict: Verdict)
    | FinishTable(sid: string, d: int)
    | Data(sid: string, dir: Direction, at: int)

  predicate Known(s: System, sid: string) { sid in s.live || sid in s.ending || sid in s.done }

  function Samples(s: System, sid: string, d: Direction): nat {
    if (sid, d) in s.samples then s.samples[(sid, d)] else 0
  }

  /** Session ids are never reused; first data may be reported for any id at any time. */
  function Step(s: System, e: Event): Option<System> {
    match e
    case BeginCount(sid) =>
      if Known(s, sid) then None
      else Some(s.(tally := StartCount(s.tally), live := s.live[sid := Counting]))
    case BeginTable(sid, at) =>
      if sid !in s.live || s.live[sid] != Counting then None
      else Some(s.(tally := StartTable(s.tally, sid, at), live := s.live[sid := Running]))
    case OpenCount(sid) =>
      if sid !in s.live || s.live[sid] != Running then None
      else Some(s.(tally := OpenCounted(s.tally), live := s.live[sid := Opening]))
    case OpenTable(sid, d) =>
      if sid !in s.live || s.live[sid] != Opening then None
      else Some(s.(tally := OpenTimed(s.tally, d), live := s.live[sid := Running]))
    case FinishCount(sid, v) =>
      if sid !in s.live || s.live[sid] != Running then None
      else Some(s.(tally := EndCount(s.tally, v), live := s.live - {sid}, ending := s.ending[sid := v]))
    case FinishTable(sid, d) =>
      if sid !in s.ending then None
      else Some(s.(tally := EndTable(s.tally, sid, d, s.ending[sid]),
                   ending := s.ending - {sid}, done := s.done + {sid}))
    case Data(sid, dir, at) =>
      Some(s.(tally := FirstData(s.tally, sid, dir, at),
              samples := if !Records(s.tally, sid, dir) then s.samples
                         else s.samples[(sid, dir) := Samples(s, sid, dir) + 1]))
  }

  function Run(s: System, events: seq<Event>): Option<System> {
    if events == [] then Some(s)
    else
      match Run(s, events[..|events| - 1])
      case None => None
      case Some(t) => Step(t, events[|events| - 1])
  }

  ghost predicate Balanced(s: System) {
    s.tally.started == s.tally.completed + s.tally.failed + s.tally.rejected + |s.live|
  }

  ghost predicate Apart(s: System) {
    && (forall sid :: sid in s.live ==> sid !in s.ending && sid !in s.done)
    && (forall sid :: sid in s.ending ==> sid !in s.done)
  }

  /** The start table holds exactly the sessions between their two halves of starting and of ending. */
  ghost predicate Tabled(s: System) {
    forall sid :: sid in s.tally.sessionStarts <==> (sid in s.live && s.live[sid] != Counting) || sid in s.ending
  }

  /** First-data marks belong to sessions in the start table. */
  ghost predicate Marked(t: Tally) {
    forall k :: k in t.firstDataObserved ==>
      exists sid: string, d: Direction :: k == FirstDataKey(sid, d) && sid in t.sessionStarts
  }

  /** One sample at most, and exactly one for every mark; none before a session is in the table. */
  ghost predicate Sampled(s: System) {
    forall sid: string, d: Direction ::
      && Samples(s, sid, d) <= 1
      && (FirstDataKey(sid, d) in s.tally.firstDataObserved ==> Samples(s, sid, d) == 1)
      && (Samples(s, sid, d) == 1 && sid !in s.done ==> FirstDataKey(sid, d) in s.tally.firstDataObserved)
  }

  predicate IsRejected(v: Verdict) { v == Rejected }

  predicate IsFinished(v: Verdict) { v != Rejected }

  predicate IsOpening(p: Phase) { p == Opening }

  /** Every session that a counter has counted has left its time sample, or is still to leave it. */
  ghost predicate Timed(s: System) {
    && |s.tally.sessionDurations| + |KeysWhere(s.ending, IsFinished)| == s.tally.completed + s.tally.failed
    && |s.tally.timeToOpenResult| + |KeysWhere(s.ending, IsRejected)| + |KeysWhere(s.live, IsOpening)| ==
       s.tally.accepted + s.tally.rejected
  }

  ghost predicate Inv(s: System) { Balanced(s) && Apart(s) && Tabled(s) && Marked(s.tally) && Sampled(s) && Timed(s) }

  lemma LiveStepOpening(s: System, sid: string, next: Phase)
    requires sid !in s.live || (s.live[sid] == Opening) != (next == Opening)
    ensures |KeysWhere(s.live[sid := next], IsOpening)| ==
            |KeysWhere(s.live, IsOpening)| + (if next == Opening then 1 else if sid in s.live then -1 else 0)
  {
    if next == Opening || sid !in s.live {
      KeysWhereAdd(s.live, sid, next, IsOpening);
    } else {
      KeysWhereDrop(s.live, sid, IsOpening);
      KeysWhereAdd(s.live - {sid}, sid, next, IsOpening);
      assert (s.live - {sid})[sid := next] == s.live[sid := next];
    }
  }

  lemma TimedStep(s: System, e: Event)
    requires Apart(s) && Timed(s) && Step(s, e).Some?
    ensures Timed(Step(s, e).value)
  {
    match e
    case BeginCount(sid) => KeysWhereAdd(s.live, sid, Counting, IsOpening);
    case BeginTable(sid, _) => KeysWhereAdd(s.live, sid, Running, IsOpening);
    case OpenCount(sid) => LiveStepOpening(s, sid, Opening);
    case OpenTable(sid, _) => LiveStepOpening(s, sid, Running);
    case FinishCount(sid, v) =>
      KeysWhereDrop(s.live, sid, IsOpening);
      KeysWhereAdd(s.ending, sid, v, IsFinished);
      KeysWhereAdd(s.ending, sid, v, IsRejected);
    case FinishTable(sid, _) =>
      KeysWhereDrop(s.ending, sid, IsFinished);
      KeysWhereDrop(s.ending, sid, IsRejected);
    case Data(_, _, _) =>
  }

  lemma LiveSize(s: System, e: Event)
    requires Step(s, e).Some?
    ensures |Step(s, e).value.live| == |s.live| + (if e.BeginCount? then 1 else if e.FinishCount? then -1 else 0)
  {
    if e.BeginCount? { MapAdd(s.live, e.sid, Counting); }
    if e.BeginTable? || e.OpenTable? { MapAdd(s.live, e.sid, Running); }
    if e.OpenCount? { MapAdd(s.live, e.sid, Opening); }
    if e.FinishCount? { MapDrop(s.live, e.sid); }
  }

  lemma BalancedStep(s: System, e: Event)
    requires Balanced(s) && Step(s, e).Some?
    ensures Balanced(Step(s, e).value)
  {
    LiveSize(s, e);
  }

  lemma TablesStep(s: System, e: Event)
    requires Apart(s) && Tabled(s) && Step(s, e).Some?
    ensures Apart(Step(s, e).value) && Tabled(Step(s, e).value)
  {
  }

  lemma MarkedStep(s: System, e: Event)
    requires Marked(s.tally) && Step(s, e).Some?
    ensures Marked(Step(s, e).value.tally)
  {
    var t := Step(s, e).value.tally;
    forall k | k in t.firstDataObserved
      ensures exists sid: string, d: Direction :: k == FirstDataKey(sid, d) && sid in t.sessionStarts
    {
      if k in s.tally.firstDataObserved {
        var sid: string, d: Direction :| k == FirstDataKey(sid, d) && sid in s.tally.sessionStarts;
        assert sid in t.sessionStarts;
      } else {
        assert k == FirstDataKey(e.sid, e.dir) && e.sid in t.sessionStarts;
      }
    }
  }

  lemma SampledStep(s: System, e: Event)
    requires Apart(s) && Tabled(s) && Marked(s.tally) && Sampled(s) && Step(s, e).Some?
    ensures Sampled(Step(s, e).value)
  {
    var t := Step(s, e).value;
    forall sid: string, d: Direction
      ensures Samples(t, sid, d) <= 1
      ensures FirstDataKey(sid, d) in t.tally.firstDataObserved ==> Samples(t, sid, d) == 1
      ensures Samples(t, sid, d) == 1 && sid !in t.done ==> FirstDataKey(sid, d) in t.tally.firstDataObserved
    {
      assert Samples(s, sid, d) <= 1;
      if e.Data? {
        if FirstDataKey(sid, d) == FirstDataKey(e.sid, e.dir) { FirstDataKeyInjective(sid, d, e.sid, e.dir); }
      }
      if e.FinishTable? && sid != e.sid {
        if FirstDataKey(sid, d) == FirstDataKey(e.sid, C2S) { FirstDataKeyInjective(sid, d, e.sid, C2S); }
        if FirstDataKey(sid, d) == FirstDataKey(e.sid, S2C) { FirstDataKeyInjective(sid, d, e.sid, S2C); }
      }
    }
  }

  lemma {:induction false} InvRun(events: seq<Event>)
    requires Run(IDLE, events).Some?
    ensures Inv(Run(IDLE, events).value)
  {
    if events != [] {
      var front := events[..|events| - 1];
      var e := events[|events| - 1];
      InvRun(front);
      var s := Run(IDLE, front).value;
      BalancedStep(s, e);
      TablesStep(s, e);
      MarkedStep(s, e);
      SampledStep(s, e);
      TimedStep(s, e);
    }
  }

  /** Every started session is completed, failed, rejected or live, in every interleaving. */
  lemma SessionsAccountedFor(events: seq<Event>, s: System)
    requires Run(IDLE, events) == Some(s)
    ensures s.tally.started == s.tally.completed + s.tally.failed + s.tally.rejected + |s.live|
    ensures (forall sid :: sid in s.live ==> s.live[sid] != Counting) && s.ending == map[] ==>
              s.tally.sessionStarts.Keys == s.live.Keys
  {
    InvRun(events);
  }

  /**
   When no session is half ended or half opened there is one duration per ended session and one opening time
   per answered one.
   */
  lemma OneSamplePerSession(events: seq<Event>, s: System)
    requires Run(IDLE, events) == Some(s) && s.ending == map[] && forall sid :: sid in s.live ==> s.live[sid] != Opening
    ensures |s.tally.sessionDurations| == s.tally.completed + s.tally.failed
    ensures |s.tally.timeToOpenResult| == s.tally.accepted + s.tally.rejected
  {
    InvRun(events);
    assert KeysWhere(s.ending, IsFinished) == {} && KeysWhere(s.ending, IsRejected) == {};
    assert KeysWhere(s.live, IsOpening) == {};
  }

  /** No mark outlives its session, and no session contributes two samples to one direction. */
  lemma FirstDataOnce(events: seq<Event>, s: System, sid: string, d: Direction)
    requires Run(IDLE, events) == Some(s)
    ensures FirstDataKey(sid, d) in s.tally.firstDataObserved ==> sid in s.tally.sessionStarts
    ensures Samples(s, sid, d) <= 1
  {
    InvRun(events);
    if FirstDataKey(sid, d) in s.tally.firstDataObserved {
      var sid': string, d': Direction
        :| FirstDataKey(sid, d) == FirstDataKey(sid', d') && sid' in s.tally.sessionStarts;
      FirstDataKeyInjective(sid, d, sid', d');
    }
  }

  // ---------------------------------------------------------------- what the numbers mean

  /** How many events of a kind there were. */
  function Begins(events: seq<Event>): nat {
    if events == [] then 0 else Begins(events[..|events| - 1]) + if events[|events| - 1].BeginCount? then 1 else 0
  }

  function Opens(events: seq<Event>): nat {
    if events == [] then 0 else Opens(events[..|events| - 1]) + if events[|events| - 1].OpenCount? then 1 else 0
  }

  function EndsAs(events: seq<Event>, v: Verdict): nat {
    if events == [] then 0
    else
      var e := events[|events| - 1];
      EndsAs(events[..|events| - 1], v) + if e.FinishCount? && e.verdict == v then 1 else 0
  }

  /** How the session was counted when it ended. */
  function VerdictOf(events: seq<Event>, sid: string): Option<Verdict> {
    if events == [] then None
    else
      var e := events[|events| - 1];
      if e.FinishCount? && e.sid == sid then Some(e.verdict) else VerdictOf(events[..|events| - 1], sid)
  }

  /** When the session started, while it has not ended. */
  function StartedAt(events: seq<Event>, sid: string): Option<int> {
    if events == [] then None
    else
      var e := events[|events| - 1];
      if e.BeginTable? && e.sid == sid then Some(e.at)
      else if e.FinishTable? && e.sid == sid then None
      else StartedAt(events[..|events| - 1], sid)
  }

  /** Has data been reported for this direction since then? */
  function Heard(events: seq<Event>, sid: string, d: Direction): bool {
    if events == [] then false
    else
      var e, front := events[|events| - 1], events[..|events| - 1];
      if e.Data? && e.sid == sid && e.dir == d && StartedAt(front, sid).Some? then true
      else if e.FinishTable? && e.sid == sid then false
      else Heard(front, sid, d)
  }

  /** The times of the answers, of the sessions, and to the first data of a direction, in order. */
  function OpeningTimes(events: seq<Event>): seq<int> {
    if events == [] then []
    else
      var e, front := events[|events| - 1], events[..|events| - 1];
      OpeningTimes(front) +
      if e.OpenTable? || (e.FinishTable? && VerdictOf(front, e.sid) == Some(Rejected)) then [e.d] else []
  }

  function Durations(events: seq<Event>): seq<int> {
    if events == [] then []
    else
      var e, front := events[|events| - 1], events[..|events| - 1];
      Durations(front) + if e.FinishTable? && VerdictOf(front, e.sid) != Some(Rejected) then [e.d] else []
  }

  function FirstTimes(events: seq<Event>, d: Direction): seq<int> {
    if events == [] then []
    else
      var e, front := events[|events| - 1], events[..|events| - 1];
      FirstTimes(front, d) +
      if e.Data? && e.dir == d && StartedAt(front, e.sid).Some? && !Heard(front, e.sid, d)
      then [e.at - StartedAt(front, e.sid).value] else []
  }

  ghost predicate TablesMirror(events: seq<Event>, s: System) {
    && (forall sid :: sid in s.tally.sessionStarts <==> StartedAt(events, sid).Some?)
    && (forall sid :: sid in s.tally.sessionStarts ==> s.tally.sessionStarts[sid] == StartedAt(events, sid).value)
    && (forall sid :: sid in s.ending ==> VerdictOf(events, sid) == Some(s.ending[sid]))
  }

  ghost predicate MarksMirror(events: seq<Event>, t: Tally) {
    forall sid: string, d: Direction :: FirstDataKey(sid, d) in t.firstDataObserved <==> Heard(events, sid, d)
  }

  ghost predicate CountersMirror(events: seq<Event>, t: Tally) {
    && t.started == Begins(events) && t.accepted == Opens(events) && t.completed == EndsAs(events, Completed)
    && t.failed == EndsAs(events, Failed) && t.rejected == EndsAs(events, Rejected)
  }

  ghost predicate TimesMirror(events: seq<Event>, t: Tally) {
    t.timeToOpenResult == OpeningTimes(events) && t.sessionDurations == Durations(events)
  }

  ghost predicate FirstsMirror(events: seq<Event>, t: Tally) {
    t.timeToFirstC2S == FirstTimes(events, C2S) && t.timeToFirstS2C == FirstTimes(events, S2C)
  }

  lemma TablesMirrorStep(front: seq<Event>, s: System, e: Event)
    requires TablesMirror(front, s) && Step(s, e).Some?
    ensures TablesMirror(front + [e], Step(s, e).value)
  {
    assert (front + [e])[..|front|] == front;
  }

  lemma MarksMirrorStep(front: seq<Event>, s: System, e: Event)
    requires TablesMirror(front, s) && MarksMirror(front, s.tally) && Step(s, e).Some?
    ensures MarksMirror(front + [e], Step(s, e).value.tally)
  {
    assert (front + [e])[..|front|] == front;
    var t := Step(s, e).value.tally;
    forall sid: string, d: Direction
      ensures FirstDataKey(sid, d) in t.firstDataObserved <==> Heard(front + [e], sid, d)
    {
      if e.Data? && FirstDataKey(sid, d) == FirstDataKey(e.sid, e.dir) { FirstDataKeyInjective(sid, d, e.sid, e.dir); }
      if e.FinishTable? {
        if FirstDataKey(sid, d) == FirstDataKey(e.sid, C2S) { FirstDataKeyInjective(sid, d, e.sid, C2S); }
        if FirstDataKey(sid, d) == FirstDataKey(e.sid, S2C) { FirstDataKeyInjective(sid, d, e.sid, S2C); }
      }
    }
  }

  lemma CountersMirrorStep(front: seq<Event>, s: System, e: Event)
    requires CountersMirror(front, s.tally) && Step(s, e).Some?
    ensures CountersMirror(front + [e], Step(s, e).value.tally)
  {
    assert (front + [e])[..|front|] == front;
  }

  lemma TimesMirrorStep(front: seq<Event>, s: System, e: Event)
    requires TablesMirror(front, s) && TimesMirror(front, s.tally) && Step(s, e).Some?
    ensures TimesMirror(front + [e], Step(s, e).value.tally)
  {
    assert (front + [e])[..|front|] == front;
  }

  lemma FirstsMirrorStep(front: seq<Event>, s: System, e: Event)
    requires TablesMirror(front, s) && MarksMirror(front, s.tally) && FirstsMirror(front, s.tally) && Step(s, e).Some?
    ensures FirstsMirror(front + [e], Step(s, e).value.tally)
  {
    assert (front + [e])[..|front|] == front;
    if e.Data? {
      assert FirstDataKey(e.sid, e.dir) in s.tally.firstDataObserved <==> Heard(front, e.sid, e.dir);
    }
  }

  ghost predicate Mirrors(events: seq<Event>, s: System) {
    && TablesMirror(events, s) && MarksMirror(events, s.tally)
    && CountersMirror(events, s.tally) && TimesMirror(events, s.tally) && FirstsMirror(events, s.tally)
  }

  lemma {:induction false} MirrorRun(events: seq<Event>, s: System)
    requires Run(IDLE, events) == Some(s)
    ensures Mirrors(events, s)
  {
    if events != [] {
      var front := events[..|events| - 1];
      var e := events[|events| - 1];
      var t := Run(IDLE, front).value;
      MirrorRun(front, t);
      assert front + [e] == events;
      assert TablesMirror(events, s) by { TablesMirrorStep(front, t, e); }
      assert MarksMirror(events, s.tally) by { MarksMirrorStep(front, t, e); }
      assert CountersMirror(events, s.tally) by { CountersMirrorStep(front, t, e); }
      assert TimesMirror(events, s.tally) by { TimesMirrorStep(front, t, e); }
      assert FirstsMirror(events, s.tally) by { FirstsMirrorStep(front, t, e); }
    }
  }

  /** Every counter counts its events, and every list holds the times of its events in order, in every interleaving. */
  lemma NumbersMean(events: seq<Event>, s: System)
    requires Run(IDLE, events) == Some(s)
    ensures s.tally.started == Begins(events) && s.tally.accepted == Opens(events)
    ensures s.tally.completed == EndsAs(events, Completed) && s.tally.failed == EndsAs(events, Failed)
    ensures s.tally.rejected == EndsAs(events, Rejected)
    ensures s.tally.timeToOpenResult == OpeningTimes(events) && s.tally.sessionDurations == Durations(events)
    ensures s.tally.timeToFirstC2S == FirstTimes(events, C2S) && s.tally.timeToFirstS2C == FirstTimes(events, S2C)
  {
    MirrorRun(events, s);
  }
}
