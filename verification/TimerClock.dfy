/** The arithmetic between a clock reading and the wheel's grid of 125 ms ticks:
    how a timeout becomes a deadline tick, and how a wake tick becomes a sleep.

    Times are nanoseconds since the clock's origin and timeouts microseconds, as
    in the program.  Unsigned 64-bit saturation is written out. */
module TimerClock {
  const TICK_US: nat := 125_000
  const TICK_NS: nat := 125_000_000
  const UINT64_MAX: nat := 0xFFFF_FFFF_FFFF_FFFF
  const UINT32_MAX: nat := 0xFFFF_FFFF

  /** Quotient rounded up. */
  function CeilTicks(us: nat): (r: nat)
    ensures us <= r * TICK_US < us + TICK_US
  {
    us / TICK_US + if us % TICK_US != 0 then 1 else 0
  }

  const DEADLINE_LIMIT: nat := CeilTicks(UINT64_MAX)

  /** The tick a clock reading falls in, from its two fields. */
  function MonotonicTicks(seconds: nat, nanoseconds: nat): nat {
    seconds * (1_000_000 / TICK_US) + nanoseconds / (TICK_US * 1000)
  }

  /** Splitting the reading into seconds and nanoseconds loses nothing: ticks
      divide seconds. */
  lemma TicksOfReading(seconds: nat, nanoseconds: nat)
    requires nanoseconds < 1_000_000_000
    ensures MonotonicTicks(seconds, nanoseconds) == (seconds * 1_000_000_000 + nanoseconds) / TICK_NS
  {
    var q := nanoseconds / TICK_NS;
    assert nanoseconds == q * TICK_NS + nanoseconds % TICK_NS;
    TickOf(seconds * 1_000_000_000 + nanoseconds, seconds * 8 + q);
  }

  function Ticks(ns: nat): nat { ns / TICK_NS }

  lemma TickOf(ns: nat, tick: nat)
    requires tick * TICK_NS <= ns < tick * TICK_NS + TICK_NS
    ensures Ticks(ns) == tick
  {
    var q := ns / TICK_NS;
    assert ns == q * TICK_NS + ns % TICK_NS;
    assert q * TICK_NS <= ns < (q + 1) * TICK_NS;
  }

  lemma TickBounds(ns: nat)
    ensures Ticks(ns) * TICK_NS <= ns < Ticks(ns) * TICK_NS + TICK_NS
  {
    assert ns == (ns / TICK_NS) * TICK_NS + ns % TICK_NS;
  }

  /** The deadline tick of a timeout armed at tick `now`. */
  function ArmDeadline(now: nat, timeout: nat): nat {
    var delta := CeilTicks(timeout);
    if now >= DEADLINE_LIMIT || delta > DEADLINE_LIMIT - now then DEADLINE_LIMIT else now + delta
  }

  /** A sweep that runs at time `at` has passed the tick. */
  predicate Swept(deadline: nat, at: nat) { deadline < Ticks(at) }

  predicate Elapsed(armed: nat, timeout: nat, at: nat) { armed + timeout * 1000 <= at }

  /** Whatever the clock read when a timeout was armed, it fires only after its
      microseconds have elapsed: exactly when arming time plus timeout does not
      run past the last sweep of the representable grid. */
  lemma NeverEarly(armed: nat, timeout: nat)
    requires timeout <= UINT64_MAX
    ensures (forall at: nat :: Swept(ArmDeadline(Ticks(armed), timeout), at) ==> Elapsed(armed, timeout, at))
            <==> armed + timeout * 1000 <= (DEADLINE_LIMIT + 1) * TICK_NS
  {
    var d := ArmDeadline(Ticks(armed), timeout);
    TickBounds(armed);
    var first := (d + 1) * TICK_NS;
    TickOf(first, d + 1);
    assert Swept(d, first);
    forall at: nat | Swept(d, at) ensures first <= at { TickBounds(at); }
  }

  /** The rounding is as small as it can be: a deadline one tick sooner fires
      early for some arming time within the same tick. */
  lemma DeadlineIsTight(now: nat, timeout: nat)
    requires 0 < timeout <= UINT64_MAX && now + CeilTicks(timeout) <= DEADLINE_LIMIT
    ensures exists armed: nat, at: nat ::
              Ticks(armed) == now && Swept(ArmDeadline(now, timeout) - 1, at) && !Elapsed(armed, timeout, at)
  {
    var armed, at := now * TICK_NS + TICK_NS - 1, ArmDeadline(now, timeout) * TICK_NS;
    TickOf(armed, now);
    TickOf(at, ArmDeadline(now, timeout));
    assert Ticks(armed) == now && Swept(ArmDeadline(now, timeout) - 1, at) && !Elapsed(armed, timeout, at);
  }

  const TICK_MS: nat := 125
  const SLEEP_TICKS_LIMIT: nat := 17_179_869

  function SleepTicks(wake: nat, current: nat): nat {
    if wake <= current then 0
    else if wake - current > SLEEP_TICKS_LIMIT then SLEEP_TICKS_LIMIT
    else wake - current
  }

  /** The wait handed to the kernel for a wake tick; the all-ones tick waits
      forever. */
  function SleepMilliseconds(wake: nat, current: nat): nat {
    if wake == UINT64_MAX then UINT32_MAX else SleepTicks(wake, current) * TICK_MS
  }

  /** A finite wait is as long as a signed 32-bit millisecond count allows, never
      runs past the wake tick, and reaches it exactly when it was not cut short. */
  lemma SleepReaches(now: nat, wake: nat)
    requires wake != UINT64_MAX && Ticks(now) <= wake
    ensures SLEEP_TICKS_LIMIT == 0x7FFF_FFFF / TICK_MS && TICK_MS * 1000 == TICK_US
    ensures SleepMilliseconds(wake, Ticks(now)) <= 0x7FFF_FFFF
    ensures Ticks(now + SleepMilliseconds(wake, Ticks(now)) * 1_000_000) <= wake
    ensures Ticks(now + SleepMilliseconds(wake, Ticks(now)) * 1_000_000) == wake
            <==> wake - Ticks(now) <= SLEEP_TICKS_LIMIT
  {
    TickBounds(now);
    TickOf(now + SleepMilliseconds(wake, Ticks(now)) * 1_000_000, Ticks(now) + SleepTicks(wake, Ticks(now)));
  }
}
