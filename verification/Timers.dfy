/** Timer arithmetic (Usb.cpp:1565-1574, 1811-1824). */
module Timers {

  const NANOS_PER_SECOND: int := 1_000_000_000
  const NANOS_PER_MILLI: int := 1_000_000

  /** The `/` and `%` of C, which truncate toward zero. */
  function Quotient(a: int, b: int): int
    requires b > 0
  {
    if a >= 0 then a / b else -(-a / b)
  }

  function Remainder(a: int, b: int): int
    requires b > 0
  {
    a - Quotient(a, b) * b
  }

  datatype Timespec = Timespec(sec: int, nsec: int)

  /** tv_nsec is in range. */
  predicate Normalized(t: Timespec) {
    0 <= t.nsec < NANOS_PER_SECOND
  }

  function Nanos(t: Timespec): int {
    t.sec * NANOS_PER_SECOND + t.nsec
  }

  /** setTimespecTimer, at time `now`: the result is exactly `debounceMs` later, whatever its sign.  It is
      normalized exactly when its nanoseconds do not become negative, so for every delay that is not
      negative; and no product overflows a 32-bit int. */
  method SetTimespecTimer(now: Timespec, debounceMs: int) returns (to: Timespec)
    requires Normalized(now)
    ensures Nanos(to) == Nanos(now) + debounceMs * NANOS_PER_MILLI
    ensures Normalized(to) <==> now.nsec + Remainder(debounceMs, 1000) * NANOS_PER_MILLI >= 0
    ensures debounceMs >= 0 ==> Normalized(to) && to.sec >= now.sec
    ensures -0x8000_0000 <= Remainder(debounceMs, 1000) * NANOS_PER_MILLI < 0x8000_0000
  {
    RemainderBound(debounceMs, 1000);
    var nsec := now.nsec + Remainder(debounceMs, 1000) * NANOS_PER_MILLI;
    var sec := now.sec + Quotient(debounceMs, 1000);
    if nsec >= NANOS_PER_SECOND {
      nsec := nsec - NANOS_PER_SECOND;
      sec := sec + 1;
    }
    to := Timespec(sec, nsec);
  }

  lemma RemainderBound(a: int, b: int)
    requires b > 0
    ensures -b < Remainder(a, b) < b
    ensures a >= 0 ==> Remainder(a, b) >= 0 && Quotient(a, b) >= 0
    ensures a <= 0 ==> Remainder(a, b) <= 0 && Quotient(a, b) <= 0
  {
  }

  /** A timer set to go off after a time, or disarmed when all of its value is zero; settime refuses
      values out of range. */
  datatype Timer = Refused | Disarmed | ArmedFor(nanos: int)

  function SetTime(value: Timespec): Timer {
    if value.sec < 0 || !Normalized(value) then Refused
    else if value.sec == 0 && value.nsec == 0 then Disarmed
    else ArmedFor(Nanos(value))
  }

  /** armTimerFdHelper: what the timer is told recombines to `ms`; it is disarmed exactly by 0, and refused
      exactly when negative. */
  method ArmTimerFd(ms: int) returns (timer: Timer)
    ensures timer == if ms < 0 then Refused else if ms == 0 then Disarmed else ArmedFor(ms * NANOS_PER_MILLI)
  {
    RemainderBound(ms, 1000);
    var value := Timespec(Quotient(ms, 1000), Remainder(ms, 1000) * NANOS_PER_MILLI);
    timer := SetTime(value);
  }
}
