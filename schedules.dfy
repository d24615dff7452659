/** The occurrence calculator that both timers consume. The schedule library itself
    (parsing an expression, computing occurrences) is external: a schedule is seen here
    only through its two queries, and its one promise is that `next` moves forward in
    time and `previous` moves backward. */
module Schedules {

  datatype Option<T> = None | Some(value: T)

  /** Time is an integer number of milliseconds since the epoch. */
  type Time = int

  /** `next(t)`: the first occurrence strictly after `t`; `previous(t)`: the last one
      strictly before `t`. `None` stands for "no occurrence": the library threw (the
      per-task loop) or returned null (the stand-alone ticker). */
  datatype Schedule = Schedule(next: Time -> Option<Time>, previous: Time -> Option<Time>)

  /** What every schedule object is assumed to satisfy. */
  ghost predicate WellFormed(s: Schedule) {
    (forall t :: s.next(t).Some? ==> s.next(t).value > t) &&
    (forall t :: s.previous(t).Some? ==> s.previous(t).value < t)
  }

  /** The delay handed to the timer when arming for `event` at time `now`
      (`Math.max(0, event - now)`): it reaches `event`, or is 0 when `event` is already
      due. The timer's own 32-bit limit on delays is not modelled. */
  function Delay(event: Time, now: Time): (d: nat)
    ensures now + d >= event
    ensures event > now ==> now + d == event
    ensures event <= now ==> d == 0
  {
    if event - now > 0 then event - now else 0
  }
}
