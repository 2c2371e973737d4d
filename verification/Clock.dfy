/** The millisecond clock of the firmware: 32 bits wide, it wraps after about 50 days. */
module Clock {
  const CLOCK: nat := 0x1_0000_0000

  /** Subtraction of two 32-bit readings. */
  function Elapsed(now: nat, since: nat): (d: nat)
    ensures d < CLOCK
  {
    (now - since) % CLOCK
  }

  /** Whether a deadline has passed: the difference read as a signed number is not negative. */
  predicate Reached(now: nat, deadline: nat) {
    Elapsed(now, deadline) < CLOCK / 2
  }

  /** A wrapped difference never exceeds the true one. */
  lemma WrappedDifference(now: nat, since: nat)
    requires since <= now
    ensures Elapsed(now % CLOCK, since % CLOCK) == (now - since) % CLOCK
    ensures (now - since) % CLOCK <= now - since
    ensures now - since < CLOCK ==> (now - since) % CLOCK == now - since
  {
    ModShift(now, since);
    ModBound(now - since);
  }

  lemma ModBound(d: nat)
    ensures d % CLOCK <= d
    ensures d < CLOCK ==> d % CLOCK == d
  {
  }

  lemma ModShift(now: nat, since: nat)
    ensures (now % CLOCK - since % CLOCK) % CLOCK == (now - since) % CLOCK
  {
    var a, b := now / CLOCK, since / CLOCK;
    var x, y := now % CLOCK - since % CLOCK, now - since;
    assert y == x + (a - b) * CLOCK;
  }

  /** The signed test is right for all times less than half a turn of the clock apart. */
  lemma ReachedIsExact(now: nat, deadline: nat)
    requires now - CLOCK / 2 < deadline <= now + CLOCK / 2
    ensures Reached(now % CLOCK, deadline % CLOCK) <==> deadline <= now
  {
    ModShift(now, deadline);
    if deadline <= now {
      ModBound(now - deadline);
    } else {
      assert (now - deadline) % CLOCK == now - deadline + CLOCK;
    }
  }
}
