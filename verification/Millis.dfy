/** The 32-bit millisecond clock, and the time that has really passed. */
module Millis {

  const CLOCK_WRAP := 0x1_0000_0000

  /** A millis() reading; it wraps. */
  type Clock = n: int | 0 <= n < CLOCK_WRAP

  /** The reading at a millisecond counted without wrapping. */
  function ClockAt(at: nat): Clock {
    if at < CLOCK_WRAP then at else ClockAt(at - CLOCK_WRAP)
  }

  /** Unsigned subtraction. */
  function Elapsed(now: Clock, since: Clock): nat {
    if now >= since then now - since else now + CLOCK_WRAP - since
  }

  lemma {:induction false} ElapsedWithinOneWrap(now: nat, since: nat)
    requires since <= now < since + CLOCK_WRAP
    ensures Elapsed(ClockAt(now), ClockAt(since)) == now - since
  {
    if since >= CLOCK_WRAP {
      ElapsedWithinOneWrap(now - CLOCK_WRAP, since - CLOCK_WRAP);
    }
  }

  lemma {:induction false} ElapsedIsModular(now: nat, since: nat)
    requires since <= now
    ensures Elapsed(ClockAt(now), ClockAt(since)) == (now - since) % CLOCK_WRAP
  {
    if now < since + CLOCK_WRAP {
      ElapsedWithinOneWrap(now, since);
    } else {
      ElapsedIsModular(now - CLOCK_WRAP, since);
    }
  }

  lemma {:induction false} ElapsedIsAtMostReal(now: nat, since: nat)
    requires since <= now
    ensures Elapsed(ClockAt(now), ClockAt(since)) <= now - since
  {
    ElapsedIsModular(now, since);
  }
}
