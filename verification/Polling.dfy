/** Poll delays: doubling with a cap, in signed 64-bit nanoseconds, and the wait for a control object. */
module Polling {
  import opened Common

  const TWO_TO_62: nat := 0x4000_0000_0000_0000

  function NextDelay(current: int, maxDelay: int): int {
    if current <= 0 then maxDelay
    else
      var next := Wrap64(current * 2);
      if next > maxDelay then maxDelay else next
  }

  /** The Kotlin delay also has a floor. */
  function KotlinNextDelay(current: int, pollMin: int, pollMax: int): int {
    Max(Min(Wrap64(current * 2), pollMax), pollMin)
  }

  datatype Client = Go | Kotlin

  function NextFor(client: Client, current: int, pollMin: int, pollMax: int): int {
    match client
    case Go => NextDelay(current, pollMax)
    case Kotlin => KotlinNextDelay(current, pollMin, pollMax)
  }

  /** The delay before the sleep after `n + 1` polls in a row found nothing. */
  function DelayAt(client: Client, pollMin: int, pollMax: int, n: nat): int {
    if n == 0 then pollMin else NextFor(client, DelayAt(client, pollMin, pollMax, n - 1), pollMin, pollMax)
  }

  function Doubled(x: int, n: nat): int { if n == 0 then x else 2 * Doubled(x, n - 1) }

  lemma {:induction false} DoublingGrows(x: int, a: nat, b: nat)
    requires x > 0 && a <= b
    ensures x <= Doubled(x, a) <= Doubled(x, b)
  {
    if a < b {
      DoublingGrows(x, a, b - 1);
    } else if a > 0 {
      DoublingGrows(x, a - 1, a - 1);
    }
  }

  lemma NextIsDoubled(client: Client, current: int, pollMin: int, pollMax: int)
    requires 0 < pollMin <= current <= pollMax < TWO_TO_62
    ensures NextFor(client, current, pollMin, pollMax) == Min(2 * current, pollMax)
  {
    assert Wrap64(current * 2) == current * 2;
  }

  /** While nothing overflows a delay is the doubled minimum, capped. */
  lemma {:induction false} DelayIsCappedDoubling(client: Client, pollMin: int, pollMax: int, n: nat)
    requires 0 < pollMin <= pollMax < TWO_TO_62
    ensures DelayAt(client, pollMin, pollMax, n) == Min(Doubled(pollMin, n), pollMax) >= pollMin
  {
    DoublingGrows(pollMin, n, n);
    if n > 0 {
      DelayIsCappedDoubling(client, pollMin, pollMax, n - 1);
      NextIsDoubled(client, DelayAt(client, pollMin, pollMax, n - 1), pollMin, pollMax);
    }
  }

  lemma {:induction false} ReachesHalfRange(pollMin: int, pollMax: int, n: nat) returns (m: nat)
    requires 0 < pollMin <= pollMax && TWO_TO_62 <= pollMax <= I64_MAX
    requires pollMin <= DelayAt(Go, pollMin, pollMax, n) <= pollMax
    ensures DelayAt(Go, pollMin, pollMax, m) >= TWO_TO_62 && DelayAt(Go, pollMin, pollMax, m) <= pollMax
    decreases TWO_TO_62 - DelayAt(Go, pollMin, pollMax, n)
  {
    if DelayAt(Go, pollMin, pollMax, n) >= TWO_TO_62 {
      m := n;
    } else {
      m := ReachesHalfRange(pollMin, pollMax, n + 1);
    }
  }

  /** All delays stay between the two poll settings if and only if the maximum is below 2^62 ns. */
  lemma DelaysInRangeIff(pollMin: int, pollMax: int)
    requires 0 < pollMin <= pollMax <= I64_MAX
    ensures (forall n: nat :: pollMin <= DelayAt(Go, pollMin, pollMax, n) <= pollMax) <==> pollMax < TWO_TO_62
  {
    if pollMax < TWO_TO_62 {
      forall n: nat ensures pollMin <= DelayAt(Go, pollMin, pollMax, n) <= pollMax {
        DelayIsCappedDoubling(Go, pollMin, pollMax, n);
      }
    } else {
      assert DelayAt(Go, pollMin, pollMax, 0) == pollMin;
      var m := ReachesHalfRange(pollMin, pollMax, 0);
      assert DelayAt(Go, pollMin, pollMax, m + 1) < 0;
    }
  }

  /** A delay that has overflown is followed by the maximum. */
  lemma OverflowThenMaximum(pollMin: int, pollMax: int, n: nat)
    requires DelayAt(Go, pollMin, pollMax, n) <= 0
    ensures DelayAt(Go, pollMin, pollMax, n + 1) == pollMax
  {
  }

  /** The Kotlin delays stay there whatever overflows. */
  lemma KotlinDelaysInRange(pollMin: int, pollMax: int, n: nat)
    requires pollMin <= pollMax
    ensures pollMin <= DelayAt(Kotlin, pollMin, pollMax, n) <= pollMax
  {
  }

  lemma KotlinDelayAgrees(current: int, pollMin: int, pollMax: int)
    requires 0 < pollMin <= current <= pollMax <= I64_MAX
    ensures KotlinNextDelay(current, pollMin, pollMax) == NextDelay(current, pollMax) <==> current < TWO_TO_62
  {
  }

  // ---------------------------------------------------------------- waiting for a control object

  /** The time that the first `n` sleeps take; a negative delay takes none. */
  function SumDelays(pollMin: int, pollMax: int, n: nat): nat {
    if n == 0 then 0 else SumDelays(pollMin, pollMax, n - 1) + Max(DelayAt(Go, pollMin, pollMax, n - 1), 0)
  }

  function Times(n: nat, d: nat): nat { if n == 0 then 0 else Times(n - 1, d) + d }

  lemma {:induction false} TimesGrows(a: nat, b: nat, d: nat)
    requires a <= b
    ensures Times(a, d) <= Times(b, d)
    ensures Times(b, d) == b * d
  {
    if a < b {
      TimesGrows(a, b - 1, d);
      assert b * d == (b - 1) * d + d;
    } else if a > 0 {
      TimesGrows(a - 1, a - 1, d);
      assert a * d == (a - 1) * d + d;
    }
  }

  lemma TimesFits(n: nat, d: nat, x: nat)
    requires d > 0 && Times(n, d) <= x
    ensures n <= x / d
  {
    var q := x / d;
    if n > q {
      TimesGrows(q + 1, n, d);
      TimesGrows(q, q, d);
    }
  }

  /** From the k-th on every delay is the maximum. */
  lemma {:induction false} SumAtLeast(pollMin: int, pollMax: int, k: nat, n: nat)
    requires 0 < pollMin <= pollMax < TWO_TO_62 && Doubled(pollMin, k) >= pollMax
    ensures SumDelays(pollMin, pollMax, n) >= if n >= k then Times(n - k, pollMax) else 0
  {
    if n > 0 {
      SumAtLeast(pollMin, pollMax, k, n - 1);
      DelayIsCappedDoubling(Go, pollMin, pollMax, n - 1);
      if n > k { DoublingGrows(pollMin, k, n - 1); }
    }
  }

  datatype Reply = Missing | Present | Refused

  datatype WaitResult = Arrived | Rejected | TimedOut | ContextDone

  /** A wait that is still going on when its `n`-th GET starts has slept at least n - 1 whole delays in time. */
  lemma GetBound(pollMin: int, pollMax: int, idle: nat, k: nat, gets: nat)
    requires 0 < pollMin <= pollMax < TWO_TO_62 && Doubled(pollMin, k) >= pollMax
    requires gets >= 2 ==> SumDelays(pollMin, pollMax, gets - 2) <= idle
    ensures gets <= k + idle / pollMax + 2
  {
    if gets >= k + 2 {
      SumAtLeast(pollMin, pollMax, k, gets - 2);
      TimesFits(gets - 2 - k, pollMax, idle);
    }
  }

  /** What the first `n` rounds took beyond their sleeps. */
  function SumSlack(slack: seq<nat>, n: nat): nat {
    if n == 0 then 0 else SumSlack(slack, n - 1) + if n <= |slack| then slack[n - 1] else 0
  }

  /** The time right after the GET with index `n`, when all rounds before it slept. */
  function CheckedAt(pollMin: int, pollMax: int, slack: seq<nat>, n: nat): nat {
    SumSlack(slack, n + 1) + SumDelays(pollMin, pollMax, n)
  }

  /** The rounds before the `n`-th found nothing in time. */
  ghost predicate KeepsWaiting(replies: seq<Reply>, pollMin: int, pollMax: int, slack: seq<nat>, idle: nat, n: nat) {
    forall i :: 0 <= i < n && i < |replies| ==> replies[i] == Missing && CheckedAt(pollMin, pollMax, slack, i) <= idle
  }

  lemma GetsBounded(replies: seq<Reply>, pollMin: int, pollMax: int, slack: seq<nat>, idle: nat, gets: nat)
    requires 0 < pollMin <= pollMax < TWO_TO_62 && gets <= |replies|
    requires gets > 0 ==> KeepsWaiting(replies, pollMin, pollMax, slack, idle, gets - 1)
    ensures forall k: nat :: Doubled(pollMin, k) >= pollMax ==> gets <= k + idle / pollMax + 2
  {
    if gets >= 2 { assert CheckedAt(pollMin, pollMax, slack, gets - 2) <= idle; }
    forall k: nat | Doubled(pollMin, k) >= pollMax ensures gets <= k + idle / pollMax + 2 {
      GetBound(pollMin, pollMax, idle, k, gets);
    }
  }

  /**
   `waitJSON`.  `replies` are the answers of successive GETs; when they run out the context is done.
   `slack[i]` is the time that the i-th round takes beyond its sleep.  The contract fixes the result.
   */
  method WaitJson(replies: seq<Reply>, slack: seq<nat>, pollMin: int, pollMax: int, idle: nat)
      returns (result: WaitResult, gets: nat, elapsed: nat)
    ensures gets <= |replies| && (result != ContextDone ==> gets > 0)
    ensures KeepsWaiting(replies, pollMin, pollMax, slack, idle, if result == ContextDone then gets else gets - 1)
    ensures match result
            case ContextDone => gets == |replies|
            case Arrived => replies[gets - 1] == Present
            case Rejected => replies[gets - 1] == Refused
            case TimedOut => replies[gets - 1] == Missing && elapsed > idle
    ensures result != ContextDone ==> elapsed == CheckedAt(pollMin, pollMax, slack, gets - 1)
    ensures 0 < pollMin <= pollMax < TWO_TO_62 ==>
              forall k: nat :: Doubled(pollMin, k) >= pollMax ==> gets <= k + idle / pollMax + 2
  {
    var delay := pollMin;
    gets, elapsed := 0, 0;
    result := ContextDone;
    while gets < |replies|
      invariant gets <= |replies| && result == ContextDone
      invariant KeepsWaiting(replies, pollMin, pollMax, slack, idle, gets)
      invariant delay == DelayAt(Go, pollMin, pollMax, gets)
      invariant elapsed == SumSlack(slack, gets) + SumDelays(pollMin, pollMax, gets)
    {
      var reply := replies[gets];
      elapsed := elapsed + if gets < |slack| then slack[gets] else 0;
      gets := gets + 1;
      if reply == Present { result := Arrived; break; }
      if reply == Refused { result := Rejected; break; }
      if elapsed > idle { result := TimedOut; break; }
      elapsed := elapsed + Max(delay, 0);
      delay := NextDelay(delay, pollMax);
    }
    if 0 < pollMin <= pollMax < TWO_TO_62 { GetsBounded(replies, pollMin, pollMax, slack, idle, gets); }
  }
}
