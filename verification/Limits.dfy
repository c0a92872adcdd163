/**
 * The gateway's limits: a rate limiter that spaces request starts, a registry of method cooldowns, and the
 * controller that applies both. Time is a clock that only moves forward; sleeping moves it at least as far.
 */
module Limits {
  /**
   * time.monotonic and time.time: the first may advance by any amount whenever it is read, and advances by at
   * least `duration` in a sleep; the second can be anything.
   */
  class Clock {
    var now: real
    var wall: real

    constructor ()
    {
      now, wall := 0.0, 0.0;
    }

    method Monotonic() returns (time: real)
      modifies this`now
      ensures time == now >= old(now)
    {
      var passed: real := *;
      now := if passed > 0.0 then now + passed else now;
      time := now;
    }

    method WallTime() returns (time: real)
      modifies this`wall
      ensures time == wall
    {
      wall := *;
      time := wall;
    }

    method Sleep(duration: real)
      modifies this`now
      ensures now >= old(now) && now >= old(now) + duration
    {
      var late: real := *;
      var asked := if duration > 0.0 then duration else 0.0;
      now := now + asked + (if late > 0.0 then late else 0.0);
    }
  }

  // ----- the rate limiter -----

  /** Each start is at least the interval after the one before. */
  ghost predicate Spaced(starts: seq<real>, interval: real) {
    forall i | 0 < i < |starts| :: starts[i - 1] + interval <= starts[i]
  }

  /** Any window of n starts spans at least n - 1 intervals. */
  lemma {:induction false} WindowSpansIntervals(starts: seq<real>, interval: real, i: nat, j: nat)
    requires Spaced(starts, interval) && i <= j < |starts|
    ensures starts[j] - starts[i] >= (j - i) as real * interval
    decreases j - i
  {
    if i < j {
      WindowSpansIntervals(starts, interval, i, j - 1);
      assert (j - 1 - i) as real * interval + interval == (j - i) as real * interval;
    }
  }

  class RateLimiter {
    const clock: Clock
    const minInterval: real
    var lastStart: real
    ghost var starts: seq<real>

    ghost predicate Valid()
      reads this
    {
      && minInterval > 0.0
      && Spaced(starts, minInterval)
      && (starts != [] ==> starts[|starts| - 1] == lastStart)
    }

    constructor (clock: Clock, minInterval: real)
      requires minInterval > 0.0
      ensures Valid() && this.clock == clock && this.minInterval == minInterval && starts == []
    {
      this.clock, this.minInterval := clock, minInterval;
      lastStart, starts := 0.0, [];
    }

    method WaitTurn()
      requires Valid()
      modifies this, clock`now
      ensures Valid() && clock.now >= old(clock.now)
      ensures starts == old(starts) + [lastStart] && lastStart == clock.now
    {
      var now := clock.Monotonic();
      var elapsed := now - lastStart;
      if elapsed < minInterval {
        clock.Sleep(minInterval - elapsed);
      }
      lastStart := clock.Monotonic();
      starts := starts + [lastStart];
    }
  }

  // ----- the cooldown registry -----

  class MethodCooldownRegistry {
    const clock: Clock
    var blockedUntil: map<string, real>
    /** Every deadline ever set, with its method, also those extended or removed since. */
    ghost var deadlines: set<(string, real)>

    /** A deadline lies in the past or is still covered by the registry. */
    ghost predicate Valid()
      reads this, clock
    {
      forall pair <- deadlines ::
        pair.1 <= clock.now || (pair.0 in blockedUntil && pair.1 <= blockedUntil[pair.0])
    }

    constructor (clock: Clock)
      ensures Valid() && this.clock == clock && blockedUntil == map[] && deadlines == {}
    {
      this.clock := clock;
      blockedUntil, deadlines := map[], {};
    }

    /** Waits until the method is not blocked: then every deadline ever set for it has passed. */
    method WaitTurn(name: string)
      requires Valid()
      modifies this`blockedUntil, clock`now
      ensures Valid() && clock.now >= old(clock.now)
      ensures forall pair <- deadlines | pair.0 == name :: pair.1 <= clock.now
      ensures forall other | other != name ::
                && (other in blockedUntil <==> other in old(blockedUntil))
                && (other in blockedUntil ==> blockedUntil[other] == old(blockedUntil)[other])
    {
      while name in blockedUntil
        invariant Valid() && clock.now >= old(clock.now) && blockedUntil == old(blockedUntil)
        decreases if name in blockedUntil && clock.now < blockedUntil[name] then 1 else 0
      {
        var now := clock.Monotonic();
        var delay := blockedUntil[name] - now;
        if delay <= 0.0 {
          blockedUntil := blockedUntil - {name};
          return;
        }
        clock.Sleep(delay);
      }
    }

    /** Blocks the method for `duration` from now; a deadline is extended but never shortened. */
    method SetCooldown(name: string, duration: real) returns (error: bool)
      requires Valid()
      modifies this, clock`now
      ensures Valid() && clock.now >= old(clock.now)
      ensures error <==> duration < 0.0
      ensures duration <= 0.0 ==> blockedUntil == old(blockedUntil) && deadlines == old(deadlines)
      ensures duration > 0.0 ==>
                var deadline := clock.now + duration;
                && deadlines == old(deadlines) + {(name, deadline)}
                && blockedUntil == old(blockedUntil)[name :=
                     if name in old(blockedUntil) && deadline < old(blockedUntil)[name] then old(blockedUntil)[name]
                     else deadline]
    {
      if duration < 0.0 {
        return true;
      }
      error := false;
      if duration == 0.0 {
        return;
      }
      var now := clock.Monotonic();
      var deadline := now + duration;
      if name !in blockedUntil || deadline > blockedUntil[name] {
        blockedUntil := blockedUntil[name := deadline];
      }
      deadlines := deadlines + {(name, deadline)};
    }
  }

  // ----- both limits over a whole run -----

  datatype LimitEvent =
    | CooldownSet(name: string, deadline: real)
    | Admitted(name: string, at: real)

  /** No request of a method is admitted before a deadline set for it earlier in the run. */
  ghost predicate DeadlinesRespected(log: seq<LimitEvent>) {
    forall i, j | && 0 <= i < j < |log| && log[i].CooldownSet? && log[j].Admitted?
                  && log[i].name == log[j].name
      :: log[i].deadline <= log[j].at
  }

  function AdmissionTimes(log: seq<LimitEvent>): seq<real> {
    if log == [] then []
    else
      var last := log[|log| - 1];
      AdmissionTimes(log[..|log| - 1]) + (if last.Admitted? then [last.at] else [])
  }

  lemma {:induction false} AdmissionTimesExtend(log: seq<LimitEvent>, last: LimitEvent)
    ensures AdmissionTimes(log + [last]) == AdmissionTimes(log) + (if last.Admitted? then [last.at] else [])
  {
    assert (log + [last])[..|log|] == log;
  }

  /** The event that recorded an admission time; it stands after any prefix of the log with fewer admissions. */
  lemma {:induction false} AdmissionEvent(log: seq<LimitEvent>, n: nat, c: nat) returns (j: nat)
    requires n <= |log| && |AdmissionTimes(log[..n])| <= c < |AdmissionTimes(log)|
    ensures n <= j < |log| && log[j] == Admitted(log[j].name, AdmissionTimes(log)[c])
  {
    assert log[..|log|] == log;
    var head := log[..|log| - 1];
    if c < |AdmissionTimes(head)| {
      assert head[..n] == log[..n];
      j := AdmissionEvent(head, n, c);
    } else {
      j := |log| - 1;
    }
  }

  class BitrixApiLimitController {
    const clock: Clock
    const rateLimiter: RateLimiter
    const cooldowns: MethodCooldownRegistry
    ghost var log: seq<LimitEvent>

    ghost predicate Valid()
      reads this, clock, rateLimiter, cooldowns
    {
      && rateLimiter.clock == clock && cooldowns.clock == clock
      && rateLimiter.Valid() && cooldowns.Valid()
      && AdmissionTimes(log) == rateLimiter.starts
      && (forall event <- log | event.CooldownSet? :: (event.name, event.deadline) in cooldowns.deadlines)
      && DeadlinesRespected(log)
    }

    constructor (rateLimiter: RateLimiter, cooldowns: MethodCooldownRegistry)
      requires rateLimiter.clock == cooldowns.clock
      requires rateLimiter.Valid() && rateLimiter.starts == [] && cooldowns.Valid()
      ensures Valid() && log == [] && this.rateLimiter == rateLimiter && this.cooldowns == cooldowns
      ensures clock == rateLimiter.clock
    {
      this.rateLimiter, this.cooldowns, clock := rateLimiter, cooldowns, rateLimiter.clock;
      log := [];
    }

    /** First the method's cooldown, then the common rate limit; the admission is the recorded start. */
    method WaitTurn(name: string)
      requires Valid()
      modifies this, clock`now, rateLimiter, cooldowns`blockedUntil
      ensures Valid() && clock.now >= old(clock.now)
      ensures log == old(log) + [Admitted(name, clock.now)]
      ensures rateLimiter.starts == old(rateLimiter.starts) + [clock.now]
    {
      cooldowns.WaitTurn(name);
      rateLimiter.WaitTurn();
      AdmissionTimesExtend(log, Admitted(name, clock.now));
      log := log + [Admitted(name, clock.now)];
    }

    method SetCooldown(name: string, duration: real) returns (error: bool)
      requires Valid()
      modifies this, clock`now, cooldowns
      ensures Valid() && clock.now >= old(clock.now) && rateLimiter.starts == old(rateLimiter.starts)
      ensures error <==> duration < 0.0
      ensures log == if duration > 0.0 then old(log) + [CooldownSet(name, clock.now + duration)] else old(log)
    {
      error := cooldowns.SetCooldown(name, duration);
      if duration > 0.0 {
        AdmissionTimesExtend(log, CooldownSet(name, clock.now + duration));
        log := log + [CooldownSet(name, clock.now + duration)];
      }
    }
  }
}
