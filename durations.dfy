/**
 * Python's datetime.timedelta, which is an exact whole number of
 * microseconds, and int(delta.total_seconds()), which truncates toward zero.
 */
module Durations {

  datatype TimeDelta = TimeDelta(micros: int)

  const MicrosPerSecond: int := 1000000

  function Abs(x: int): nat
  {
    if x < 0 then -x else x
  }

  /** int(d.total_seconds()): whole seconds, truncated toward zero. */
  function WholeSeconds(d: TimeDelta): (s: int)
    ensures Abs(s) * MicrosPerSecond <= Abs(d.micros) < (Abs(s) + 1) * MicrosPerSecond
    ensures s != 0 ==> (s < 0 <==> d.micros < 0)
  {
    if d.micros >= 0 then d.micros / MicrosPerSecond
    else -((-d.micros) / MicrosPerSecond)
  }

  /** timedelta(seconds=n) */
  function Seconds(n: int): TimeDelta
  {
    TimeDelta(n * MicrosPerSecond)
  }

  /** A whole number of seconds survives the round trip through total_seconds(). */
  lemma WholeSecondsOfSeconds(n: int)
    ensures WholeSeconds(Seconds(n)) == n
  {
    if n < 0 {
      assert (-(n * MicrosPerSecond)) / MicrosPerSecond == -n;
    }
  }
}
