// The gate in front of the upstream API: callers reserve start times one slot apart. Times are nanoseconds since an
// arbitrary origin; an instant above `maxInstant` cannot be represented on the platform.
module RequestGate {
  import opened Spacing

  const NANOS: nat := 1_000_000_000
  const MAX_DOCUMENTED_REQUESTS_PER_SECOND: nat := 40

  datatype PolicyError = ZeroRate | ZeroConcurrency | RateAboveDocumentedLimit | ConcurrencyTooLarge

  datatype PolicyResult = Accepted(rate: nat, concurrency: nat) | Rejected(error: PolicyError)

  /** `RateLimitPolicy::try_new`: the first failed check is the one reported. */
  function TryNew(rate: nat, concurrency: nat): PolicyResult {
    if rate == 0 then Rejected(ZeroRate)
    else if concurrency == 0 then Rejected(ZeroConcurrency)
    else if rate > MAX_DOCUMENTED_REQUESTS_PER_SECOND then Rejected(RateAboveDocumentedLimit)
    else if concurrency > 256 then Rejected(ConcurrencyTooLarge)
    else Accepted(rate, concurrency)
  }

  function SlotInterval(rate: nat): nat
    requires rate > 0
  {
    if NANOS / rate < 1 then 1 else NANOS / rate
  }

  /** One call: the clock when it holds the lock, and the clock read again if the next slot is not representable. */
  datatype Call = Call(now: nat, fallback: nat)

  function Max(a: nat, b: nat): nat {
    if a < b then b else a
  }

  function NextSlot(start: nat, interval: nat, maxInstant: nat, fallback: nat): nat {
    if start + interval <= maxInstant then start + interval else fallback
  }

  /** The start times reserved by a series of calls, in the order they held the lock. */
  function Schedule(slot: nat, interval: nat, maxInstant: nat, calls: seq<Call>): (starts: seq<nat>)
    ensures |starts| == |calls|
    decreases |calls|
  {
    if calls == [] then []
    else
      var start := Max(slot, calls[0].now);
      [start] + Schedule(NextSlot(start, interval, maxInstant, calls[0].fallback), interval, maxInstant, calls[1..])
  }

  /** Every clock reading is an instant of the platform. */
  predicate Representable(calls: seq<Call>, maxInstant: nat) {
    forall i :: 0 <= i < |calls| ==> calls[i].now <= maxInstant && calls[i].fallback <= maxInstant
  }

  class Gate {
    var nextSlot: nat
    const slotInterval: nat
    const maxInstant: nat
    ghost const origin: nat
    ghost var calls: seq<Call>

    ghost predicate Valid()
      reads this
    {
      forall more: seq<Call> ::
        Schedule(origin, slotInterval, maxInstant, calls + more)
        == Schedule(origin, slotInterval, maxInstant, calls) + Schedule(nextSlot, slotInterval, maxInstant, more)
    }

    constructor (rate: nat, now: nat, maxInstant: nat)
      requires rate > 0
      ensures Valid() && calls == [] && origin == nextSlot == now
      ensures slotInterval == SlotInterval(rate) && this.maxInstant == maxInstant
    {
      nextSlot := now;
      origin := now;
      calls := [];
      var interval := NANOS / rate;
      slotInterval := if interval < 1 then 1 else interval;
      this.maxInstant := maxInstant;
      new;
      assert forall more: seq<Call> :: [] + more == more;
    }

    /** The critical section of `acquire`, and the sleep it asks for. */
    method Acquire(now: nat, fallback: nat) returns (delay: nat)
      requires Valid()
      modifies this
      ensures Valid() && calls == old(calls) + [Call(now, fallback)]
      ensures var starts := Schedule(origin, slotInterval, maxInstant, calls);
              starts != [] && now + delay == starts[|starts| - 1]
    {
      var scheduled := if nextSlot < now then now else nextSlot;
      ghost var before, slot := calls, nextSlot;
      var call := Call(now, fallback);
      assert Schedule(origin, slotInterval, maxInstant, before + [call])
          == Schedule(origin, slotInterval, maxInstant, before) + Schedule(slot, slotInterval, maxInstant, [call]);
      nextSlot := if scheduled + slotInterval <= maxInstant then scheduled + slotInterval else fallback;
      calls := calls + [call];
      forall more: seq<Call>
        ensures Schedule(origin, slotInterval, maxInstant, calls + more)
             == Schedule(origin, slotInterval, maxInstant, calls) + Schedule(nextSlot, slotInterval, maxInstant, more)
      {
        assert calls + more == before + ([call] + more);
        assert ([call] + more)[1..] == more;
      }
      delay := scheduled - now;
    }
  }

  // ---- what the schedule guarantees ---------------------------------------------------------------

  /** No reservation but the last runs off the end of representable time. */
  predicate Fits(starts: seq<nat>, interval: nat, maxInstant: nat) {
    forall i :: 0 <= i < |starts| - 1 ==> starts[i] + interval <= maxInstant
  }

  /** A start is never before its caller's clock. */
  lemma {:induction false} StartsFollowClocks(slot: nat, interval: nat, maxInstant: nat, calls: seq<Call>)
    requires slot <= maxInstant && Representable(calls, maxInstant)
    ensures forall i :: 0 <= i < |calls| ==>
      calls[i].now <= Schedule(slot, interval, maxInstant, calls)[i] <= maxInstant
    ensures calls != [] ==> slot <= Schedule(slot, interval, maxInstant, calls)[0]
    decreases |calls|
  {
    if calls != [] {
      var start := Max(slot, calls[0].now);
      var next := NextSlot(start, interval, maxInstant, calls[0].fallback);
      StartsFollowClocks(next, interval, maxInstant, calls[1..]);
    }
  }

  /**
   * No caller waits longer than it must: each start is its caller's own clock, or the slot that the start before it
   * left, an interval later.
   */
  lemma {:induction false} StartsAreNotDelayed(slot: nat, interval: nat, maxInstant: nat, calls: seq<Call>, i: nat)
    requires i < |calls| && Fits(Schedule(slot, interval, maxInstant, calls), interval, maxInstant)
    ensures var starts := Schedule(slot, interval, maxInstant, calls);
            starts[i] == calls[i].now || starts[i] == if i == 0 then slot else starts[i - 1] + interval
    decreases |calls|
  {
    var starts := Schedule(slot, interval, maxInstant, calls);
    var start := Max(slot, calls[0].now);
    var next := NextSlot(start, interval, maxInstant, calls[0].fallback);
    var rest := Schedule(next, interval, maxInstant, calls[1..]);
    assert starts == [start] + rest;
    if i > 0 {
      assert starts[0] + interval <= maxInstant;
      forall k | 0 <= k < |rest| - 1 ensures rest[k] + interval <= maxInstant { assert rest[k] == starts[k + 1]; }
      StartsAreNotDelayed(next, interval, maxInstant, calls[1..], i - 1);
      assert starts[i] == rest[i - 1] && (i > 1 ==> starts[i - 1] == rest[i - 2]);
    }
  }

  /** A policy is accepted from 1 to 40 requests a second and 1 to 256 at once; otherwise its first fault is named. */
  lemma PolicyIsAcceptedIff(rate: nat, concurrency: nat)
    ensures TryNew(rate, concurrency) == Accepted(rate, concurrency) <==> 1 <= rate <= 40 && 1 <= concurrency <= 256
    ensures TryNew(rate, concurrency) == Rejected(ZeroRate) <==> rate == 0
    ensures TryNew(rate, concurrency) == Rejected(ZeroConcurrency) <==> rate > 0 && concurrency == 0
    ensures TryNew(rate, concurrency) == Rejected(RateAboveDocumentedLimit) <==> rate > 40 && concurrency > 0
    ensures TryNew(rate, concurrency) == Rejected(ConcurrencyTooLarge) <==> 1 <= rate <= 40 && concurrency > 256
  {
  }

  lemma ConsSpaced(start: nat, rest: seq<nat>, interval: nat, maxInstant: nat)
    ensures Spaced([start] + rest, interval) <==> Spaced(rest, interval) && (rest != [] ==> start + interval <= rest[0])
    ensures Fits([start] + rest, interval, maxInstant)
       <==> Fits(rest, interval, maxInstant) && (rest != [] ==> start + interval <= maxInstant)
  {
    var all := [start] + rest;
    assert forall i :: 0 <= i < |rest| ==> all[i + 1] == rest[i];
    if Spaced(all, interval) {
      forall i | 0 < i < |rest| ensures rest[i - 1] + interval <= rest[i] {
        assert all[i] + interval <= all[i + 1];
      }
      if rest != [] { assert all[0] + interval <= all[1]; }
    }
    if Spaced(rest, interval) && (rest != [] ==> start + interval <= rest[0]) {
      forall i | 0 < i < |all| ensures all[i - 1] + interval <= all[i] {
        if i > 1 { assert rest[i - 2] + interval <= rest[i - 1]; }
      }
    }
    if Fits(all, interval, maxInstant) {
      forall i | 0 <= i < |rest| - 1 ensures rest[i] + interval <= maxInstant {
        assert all[i + 1] + interval <= maxInstant;
      }
      if rest != [] { assert all[0] + interval <= maxInstant; }
    }
  }

  /** Starts are one interval apart exactly when the next slot could be represented each time. */
  lemma {:induction false} StartsAreSpacedIff(slot: nat, interval: nat, maxInstant: nat, calls: seq<Call>)
    requires slot <= maxInstant && Representable(calls, maxInstant)
    ensures Spaced(Schedule(slot, interval, maxInstant, calls), interval)
       <==> Fits(Schedule(slot, interval, maxInstant, calls), interval, maxInstant)
    decreases |calls|
  {
    if calls != [] {
      var start := Max(slot, calls[0].now);
      var next := NextSlot(start, interval, maxInstant, calls[0].fallback);
      var rest := Schedule(next, interval, maxInstant, calls[1..]);
      StartsAreSpacedIff(next, interval, maxInstant, calls[1..]);
      StartsFollowClocks(next, interval, maxInstant, calls[1..]);
      ConsSpaced(start, rest, interval, maxInstant);
    }
  }

  /** The most reservations that any one-second window can hold. */
  function MostPerSecond(rate: nat): nat
    requires rate > 0
  {
    if NANOS % rate == 0 then rate else rate + 1
  }

  lemma IntervalBounds(rate: nat)
    requires 0 < rate <= MAX_DOCUMENTED_REQUESTS_PER_SECOND
    ensures SlotInterval(rate) == NANOS / rate >= 25_000_000
    ensures rate * SlotInterval(rate) == NANOS - NANOS % rate
  {
  }

  /** `MostPerSecond` starts just reach across a second. */
  lemma MostPerSecondIsCeiling(rate: nat)
    requires 0 < rate <= MAX_DOCUMENTED_REQUESTS_PER_SECOND
    ensures (MostPerSecond(rate) - 1) * SlotInterval(rate) < NANOS <= MostPerSecond(rate) * SlotInterval(rate)
  {
    IntervalBounds(rate);
    var interval := SlotInterval(rate);
    OneMore(rate - 1, interval);
    OneMore(rate, interval);
  }

  /** For every schedule of an accepted policy, no one-second window holds more than `MostPerSecond` starts. */
  lemma RateIsBounded(rate: nat, concurrency: nat, slot: nat, maxInstant: nat, calls: seq<Call>, from: nat)
    requires TryNew(rate, concurrency).Accepted? && slot <= maxInstant && Representable(calls, maxInstant)
    requires Fits(Schedule(slot, SlotInterval(rate), maxInstant, calls), SlotInterval(rate), maxInstant)
    ensures CountIn(Schedule(slot, SlotInterval(rate), maxInstant, calls), from, from + NANOS) <= MostPerSecond(rate)
  {
    var interval := SlotInterval(rate);
    var starts := Schedule(slot, interval, maxInstant, calls);
    StartsAreSpacedIff(slot, interval, maxInstant, calls);
    IntervalBounds(rate);
    MostPerSecondIsCeiling(rate);
    var c, most := CountIn(starts, from, from + NANOS), MostPerSecond(rate);
    if c > most {
      var i := LatestCounted(starts, interval, from, from + NANOS);
      TimesMonotone(most, c - 1, interval);
    }
  }

  function Burst(n: nat): seq<Call> {
    seq(n, i => Call(0, 0))
  }

  lemma {:induction false} BurstSchedule(slot: nat, interval: nat, maxInstant: nat, n: nat)
    requires slot + n * interval <= maxInstant
    ensures forall k :: 0 <= k < n ==> Schedule(slot, interval, maxInstant, Burst(n))[k] == slot + k * interval
    decreases n
  {
    if n > 0 {
      assert n * interval == interval + (n - 1) * interval;
      assert (n - 1) * interval >= 0;
      assert Burst(n)[1..] == Burst(n - 1);
      BurstSchedule(slot + interval, interval, maxInstant, n - 1);
      var starts, rest :=
        Schedule(slot, interval, maxInstant, Burst(n)), Schedule(slot + interval, interval, maxInstant, Burst(n - 1));
      forall k | 0 <= k < n ensures starts[k] == slot + k * interval {
        if k > 0 { assert starts[k] == rest[k - 1] && interval + (k - 1) * interval == k * interval; }
      }
    }
  }

  /** The bound is met by a burst, so the configured rate is itself the bound only for rates that divide a second. */
  lemma BoundIsReached(rate: nat, maxInstant: nat)
    requires 0 < rate <= MAX_DOCUMENTED_REQUESTS_PER_SECOND && maxInstant >= 2 * NANOS
    ensures var starts := Schedule(0, SlotInterval(rate), maxInstant, Burst(MostPerSecond(rate)));
            Fits(starts, SlotInterval(rate), maxInstant) && CountIn(starts, 0, NANOS) == MostPerSecond(rate)
  {
    var n, interval := MostPerSecond(rate), SlotInterval(rate);
    IntervalBounds(rate);
    MostPerSecondIsCeiling(rate);
    OneMore(n - 1, interval);
    BurstSchedule(0, interval, maxInstant, n);
    var starts := Schedule(0, interval, maxInstant, Burst(n));
    EvenBurst(starts, interval, NANOS);
    forall i | 0 <= i < n - 1 ensures starts[i] + interval <= maxInstant {
      TimesMonotone(i + 1, n - 1, interval);
      OneMore(i, interval);
    }
  }

  /**
   * At the end of representable time the next slot is the clock read at the second look, and calls bunch: two calls at
   * the last instant both start at once.
   */
  lemma OverflowBunches(interval: nat, maxInstant: nat)
    requires interval > 0
    ensures var calls := [Call(maxInstant, maxInstant), Call(maxInstant, maxInstant)];
            var starts := Schedule(maxInstant, interval, maxInstant, calls);
            && Representable(calls, maxInstant) && starts == [maxInstant, maxInstant]
            && !Fits(starts, interval, maxInstant) && !Spaced(starts, interval)
  {
    var last := Call(maxInstant, maxInstant);
    assert [last, last][1..] == [last];
    assert Schedule(maxInstant, interval, maxInstant, [last]) == [maxInstant];
    var starts := Schedule(maxInstant, interval, maxInstant, [last, last]);
    assert starts == [maxInstant] + [maxInstant];
    assert starts[0] + interval > starts[1];
  }
}
