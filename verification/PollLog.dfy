/**
 What a receiver asks of its surroundings, and when.  From the log alone one can tell when data last came,
 how often the loop has slept since, and so when it must give up and how long it has to sleep.
 */
module PollLog {
  import Polling

  /** A data GET, an ACK PUT and a sleep carry the time they are made at. */
  datatype Asked = Got(found: bool, at: nat) | Acked(at: nat) | Headed | Paused(at: nat, delay: int, woke: bool)

  /** When the latest data object was found and, if that was due, acknowledged. */
  ghost function Served(log: seq<Asked>, start: nat): nat {
    if log == [] then start
    else
      match log[|log| - 1]
      case Got(true, at) => at
      case Acked(at) => at
      case _ => Served(log[..|log| - 1], start)
  }

  /** The sleeps since then, and since the last early wake-up. */
  ghost function Sleeps(log: seq<Asked>): nat {
    if log == [] then 0
    else
      match log[|log| - 1]
      case Got(found, _) => if found then 0 else Sleeps(log[..|log| - 1])
      case Acked(_) => 0
      case Headed => Sleeps(log[..|log| - 1])
      case Paused(_, _, woke) => if woke then 0 else Sleeps(log[..|log| - 1]) + 1
  }

  /** At the top of the loop: nothing asked yet, or data served, or slept. */
  predicate AtTop(log: seq<Asked>) {
    log == [] || log[|log| - 1].Acked? || log[|log| - 1].Paused? || (log[|log| - 1].Got? && log[|log| - 1].found)
  }

  /** In the middle of a round that found nothing. */
  predicate AfterMiss(log: seq<Asked>) {
    log != [] && (log[|log| - 1].Headed? || (log[|log| - 1].Got? && !log[|log| - 1].found))
  }

  datatype Pace = Pace(client: Polling.Client, pollMin: int, pollMax: int, idle: nat, start: nat)

  function DelayNow(p: Pace, n: nat): int { Polling.DelayAt(p.client, p.pollMin, p.pollMax, n) }

  /** May this event come next? */
  ghost predicate Due(p: Pace, log: seq<Asked>, e: Asked) {
    match e
    case Got(_, _) => AtTop(log)
    case Acked(_) => log != [] && log[|log| - 1].Got? && log[|log| - 1].found
    case Headed => log != [] && log[|log| - 1].Got? && !log[|log| - 1].found
    case Paused(at, delay, _) =>
      AfterMiss(log) && delay == DelayNow(p, Sleeps(log)) && at <= Served(log, p.start) + p.idle
  }

  /**
   One data GET a round; an ACK only after data, a HEAD only after a miss, and a sleep only after a round
   without data that was in time, for the delay that is due.
   */
  ghost predicate Orderly(p: Pace, log: seq<Asked>) {
    log == [] || (Orderly(p, log[..|log| - 1]) && Due(p, log[..|log| - 1], log[|log| - 1]))
  }

  lemma OneMore(p: Pace, log: seq<Asked>, e: Asked)
    requires Orderly(p, log) && Due(p, log, e)
    ensures Orderly(p, log + [e]) && (log + [e])[|log|] == e
    ensures Served(log + [e], p.start) == match e
                                          case Got(true, at) => at
                                          case Acked(at) => at
                                          case _ => Served(log, p.start)
    ensures Sleeps(log + [e]) == match e
                                 case Got(false, _) => Sleeps(log)
                                 case Headed => Sleeps(log)
                                 case Paused(_, _, false) => Sleeps(log) + 1
                                 case _ => 0
  {
    assert (log + [e])[..|log + [e]| - 1] == log;
  }

  /** At the top of the loop a GET is due, whatever it finds. */
  lemma NextGet(p: Pace, log: seq<Asked>, now: nat)
    requires Orderly(p, log) && AtTop(log)
    ensures forall found: bool :: Orderly(p, log + [Got(found, now)])
    ensures Served(log + [Got(true, now)], p.start) == now && Sleeps(log + [Got(true, now)]) == 0
    ensures Served(log + [Got(false, now)], p.start) == Served(log, p.start)
    ensures Sleeps(log + [Got(false, now)]) == Sleeps(log)
  {
    OneMore(p, log, Got(true, now));
    OneMore(p, log, Got(false, now));
  }

  /** After a round without data that is in time a sleep is due. */
  lemma NextSleep(p: Pace, log: seq<Asked>, now: nat, delay: int)
    requires Orderly(p, log) && AfterMiss(log) && now <= Served(log, p.start) + p.idle
    requires delay == DelayNow(p, Sleeps(log))
    ensures forall woke: bool ::
              var after := log + [Paused(now, delay, woke)];
              && Orderly(p, after) && AtTop(after) && Served(after, p.start) == Served(log, p.start)
              && Sleeps(after) == if woke then 0 else Sleeps(log) + 1
  {
    OneMore(p, log, Paused(now, delay, true));
    OneMore(p, log, Paused(now, delay, false));
  }

  /** No sleep begins later than the idle time after data, whatever came in between. */
  lemma SleepsInTime(p: Pace, log: seq<Asked>, i: nat)
    requires Orderly(p, log) && i < |log| && log[i].Paused?
    ensures log[i].at <= Served(log[..i], p.start) + p.idle
    ensures log[i].delay == DelayNow(p, Sleeps(log[..i]))
  {
    if i < |log| - 1 {
      SleepsInTime(p, log[..|log| - 1], i);
      assert log[..|log| - 1][..i] == log[..i];
    }
  }
}
