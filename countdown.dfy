/** The countdown of the deals banner: hours, minutes and seconds left,
    advanced by one tick a second. */
module Countdown {

  datatype TimeLeft = TimeLeft(h: int, m: int, s: int)

  /** The banner's initial value, 12:45:00. */
  const Start: TimeLeft := TimeLeft(12, 45, 0)

  const Zero: TimeLeft := TimeLeft(0, 0, 0)

  /** A clock reading: no negative hours, minutes and seconds within 0..59. */
  predicate InRange(t: TimeLeft) {
    t.h >= 0 && 0 <= t.m < 60 && 0 <= t.s < 60
  }

  /** The number of seconds a reading stands for. */
  function Seconds(t: TimeLeft): int {
    t.h * 3600 + t.m * 60 + t.s
  }

  /** The reading that stands for `n` seconds. */
  function FromSeconds(n: nat): (t: TimeLeft)
    ensures InRange(t) && Seconds(t) == n
  {
    TimeLeft(n / 3600, (n % 3600) / 60, n % 60)
  }

  /** One tick: take a second, borrowing from the minutes and then from the
      hours; a reading with nothing left to borrow stays as it is. */
  function Tick(t: TimeLeft): (r: TimeLeft)
    ensures t.h >= 0 && t.m >= 0 && t.s >= 0 ==> r.h >= 0 && r.m >= 0 && r.s >= 0
    ensures t == Zero ==> r == Zero
    ensures InRange(t) ==> InRange(r)
    ensures InRange(t) ==> Seconds(r) == if Seconds(t) == 0 then 0 else Seconds(t) - 1
  {
    if t.s > 0 then t.(s := t.s - 1)
    else if t.m > 0 then TimeLeft(t.h, t.m - 1, 59)
    else if t.h > 0 then TimeLeft(t.h - 1, 59, 59)
    else t
  }

  /** A clock reading is determined by the seconds it stands for. */
  lemma SecondsDetermine(t: TimeLeft)
    requires InRange(t)
    ensures FromSeconds(Seconds(t)) == t
  {
    var n := Seconds(t);
    assert n / 3600 == t.h && n % 3600 == t.m * 60 + t.s;
    assert (t.m * 60 + t.s) / 60 == t.m && (t.m * 60 + t.s) % 60 == t.s;
  }

  /** A tick on a clock reading agrees with subtracting one second, stopping
      at zero. */
  lemma TickIsOneSecond(t: TimeLeft)
    requires InRange(t)
    ensures Tick(t) == FromSeconds(if Seconds(t) == 0 then 0 else Seconds(t) - 1)
  {
    SecondsDetermine(Tick(t));
  }

  /** The reading after `n` ticks. */
  function Ticks(t: TimeLeft, n: nat): TimeLeft
    decreases n
  {
    if n == 0 then t else Ticks(Tick(t), n - 1)
  }

  /** After `n` ticks a clock reading stands for `n` seconds fewer, and never
      for fewer than zero. */
  lemma {:induction false} TicksCountDown(t: TimeLeft, n: nat)
    requires InRange(t)
    ensures InRange(Ticks(t, n))
    ensures Seconds(Ticks(t, n)) == if Seconds(t) >= n then Seconds(t) - n else 0
    decreases n
  {
    if n > 0 {
      TicksCountDown(Tick(t), n - 1);
    }
  }

  /** A countdown reaches 00:00:00 after exactly as many ticks as the
      seconds it stands for, and stays there. */
  lemma RunsOut(t: TimeLeft, n: nat)
    requires InRange(t)
    ensures Ticks(t, n) == Zero <==> n >= Seconds(t)
  {
    var r := Ticks(t, n);
    if n >= Seconds(t) {
      assert r == Zero by {
        TicksCountDown(t, n);
        assert InRange(r) && Seconds(r) == 0;
        ZeroSecondsIsZero(r);
      }
    } else {
      assert Seconds(r) > 0 by {
        TicksCountDown(t, n);
      }
    }
  }

  lemma ZeroSecondsIsZero(t: TimeLeft)
    requires InRange(t) && Seconds(t) == 0
    ensures t == Zero
  {
  }

  /** The banner's 12:45:00 runs out after 45900 ticks. */
  lemma StartRunsOut(n: nat)
    ensures Ticks(Start, n) == Zero <==> n >= 45900
  {
    RunsOut(Start, n);
  }
}
