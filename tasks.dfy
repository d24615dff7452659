/** The per-task run loop: a task owns one schedule and re-arms one timer per
    occurrence. A generation counter (`runId`) tags every timer and every "done"
    closure; stopping the loop bumps it, so anything tagged with an older generation
    becomes a no-op. */
module Tasks {
  import opened Schedules
  import opened Handlers

  /** Added to the caller's last known event before it is compared with the catch-up
      candidate (one second, in milliseconds). */
  const CatchUpTolerance: int := 1000

  /** A mutable date object, as a caller hands it to `StartSchedule`. */
  class Date {
    var time: Time

    constructor (time: Time)
      ensures this.time == time
    {
      this.time := time;
    }
  }

  /** A timer handle: the generation it was armed under, its delay, and whether it has
      been cancelled since. */
  datatype Timer = Timer(runId: nat, delay: nat, cleared: bool)

  /** What one "done" closure captures: the generation and the occurrence it was
      created for. Its `called` flag is kept by the task (`openDone`). */
  datatype DoneCallback = DoneCallback(runId: nat, eventTime: Time)

  /** An error value as the handlers receive it. */
  datatype Fault = CallbackError(id: nat) | DoneCalledTwice

  /** One call made to an error handler: the handler and the error it was given
      (None for a null or otherwise falsy error value). */
  datatype Report = Report(handler: Handler, error: Option<Fault>)

  /** Why `StartSchedule` threw. */
  datatype StartError = NotAttached | ScheduleThrew

  /** How the synchronous part of the user callback ended: it returned, or it threw
      (a falsy thrown value is `Threw(None)`). */
  datatype Outcome = Returned | Threw(error: Option<Fault>)

  /** The reports one `raiseError` makes: every handler, in list order, with the same error. */
  function Fanout(handlers: seq<Handler>, error: Option<Fault>): seq<Report> {
    seq(|handlers|, i requires 0 <= i < |handlers| => Report(handlers[i], error))
  }

  ghost predicate Increasing(s: seq<Time>) {
    forall i, j :: 0 <= i < j < |s| ==> s[i] < s[j]
  }

  /** The occurrence `StartSchedule` settles on before skipping serviced ones: the
      previous occurrence when catching up, else the next one; None when the schedule
      throws. */
  function FirstCandidate(s: Schedule, window: int, lastKnown: Option<Time>, now: Time): (r: Option<Time>)
    // the candidate is one of the two answers the schedule gives for `now`
    ensures r == s.next(now) || r == s.previous(now)
  {
    if window > 0 && lastKnown.Some? then
      match s.previous(now)
      case None => None
      case Some(prev) =>
        if prev > lastKnown.value + CatchUpTolerance && prev > now - window then Some(prev)
        else s.next(now)
    else s.next(now)
  }

  /** The catch-up rule: the first event lies in the past exactly when the window is
      positive, a last known event was given, and the previous occurrence is both later
      than that event plus the tolerance and inside the window; it is then that
      previous occurrence, and a candidate at or after `now` is the next one. */
  lemma CatchUpRule(s: Schedule, window: int, lastKnown: Option<Time>, now: Time)
    requires WellFormed(s)
    ensures var r := FirstCandidate(s, window, lastKnown, now);
      (r.Some? && r.value < now) <==>
        (window > 0 && lastKnown.Some? && s.previous(now).Some? &&
         s.previous(now).value > lastKnown.value + CatchUpTolerance &&
         s.previous(now).value > now - window)
    ensures var r := FirstCandidate(s, window, lastKnown, now);
      r.Some? && r.value < now ==> r == s.previous(now) && r.value > now - window
    ensures var r := FirstCandidate(s, window, lastKnown, now);
      r.Some? && r.value >= now ==> r == s.next(now)
    ensures FirstCandidate(s, window, lastKnown, now).None? ==>
      s.next(now).None? || (window > 0 && lastKnown.Some? && s.previous(now).None?)
  {
  }

  /** Follows `next` from `t` until the occurrence passes `bound`; None when the
      schedule throws on the way. */
  function AdvancePast(s: Schedule, t: Time, bound: Time): (r: Option<Time>)
    requires WellFormed(s)
    ensures r.Some? ==> r.value > bound && r.value >= t
    ensures t > bound ==> r == Some(t)
    decreases bound - t
  {
    if t > bound then Some(t)
    else
      match s.next(t)
      case None => None
      case Some(u) => AdvancePast(s, u, bound)
  }

  /** The loop in `startSchedule` that refuses to service `prev` or anything before it
      again: the result is strictly after `prev`. */
  method SkipServiced(s: Schedule, first: Time, prev: Time) returns (r: Option<Time>)
    requires WellFormed(s)
    ensures r == AdvancePast(s, first, prev)
    ensures r.Some? ==> r.value > prev && r.value >= first
  {
    var event := first;
    while event <= prev
      invariant AdvancePast(s, event, prev) == AdvancePast(s, first, prev)
      decreases prev - event
    {
      match s.next(event)
      case None => return None;
      case Some(u) => event := u;
    }
    return Some(event);
  }

  /** The first occurrence a (re)started loop services: the catch-up candidate, moved
      past the last serviced occurrence when there is one. */
  function FirstEvent(s: Schedule, window: int, lastKnown: Option<Time>, prevEvent: Option<Time>, now: Time): (r: Option<Time>)
    requires WellFormed(s)
    ensures r.Some? && prevEvent.Some? ==> r.value > prevEvent.value
    ensures r.Some? ==> FirstCandidate(s, window, lastKnown, now).Some?
  {
    match FirstCandidate(s, window, lastKnown, now)
    case None => None
    case Some(c) => if prevEvent.Some? then AdvancePast(s, c, prevEvent.value) else Some(c)
  }

  /** The occurrence a completed invocation re-arms for: `next()` from now, or, when
      that is not after the serviced occurrence, `next(eventTime)`. It is strictly after
      both the serviced occurrence and the present. */
  function NextAfter(s: Schedule, now: Time, eventTime: Time): (r: Option<Time>)
    requires WellFormed(s)
    ensures r.Some? ==> r.value > eventTime && r.value > now
    ensures r.None? <==> s.next(now).None? || (s.next(now).value <= eventTime && s.next(eventTime).None?)
  {
    match s.next(now)
    case None => None
    case Some(n) => if n <= eventTime then s.next(eventTime) else Some(n)
  }

  /** A timer is armed and has been neither cancelled nor fired. */
  predicate IsPending(timeout: Option<Timer>) {
    timeout.Some? && !timeout.value.cleared
  }

  class ScheduledTask {
    const name: string
    const isAsync: bool
    var schedule: Schedule
    /** Catch-up window in milliseconds; 0 disables catching up. */
    var window: int
    var isAttached: bool
    var isScheduleRunning: bool
    var isCallbackExecuting: bool
    /** The last timer handle stored (`_timeout`); stopping cancels it but keeps it. */
    var timeout: Option<Timer>
    var nextEvent: Option<Time>
    var prevEvent: Option<Time>
    var runId: nat
    var errorHandlers: seq<Handler>
    /** Every done closure handed out so far, in creation order. */
    var doneCallbacks: seq<DoneCallback>
    /** The one done closure whose `called` flag is still false, if any: a closure is
        handed out only while no invocation is running, and every earlier closure has
        been called by then, so the flags of all closures come down to this index. */
    var openDone: Option<nat>
    /** Every call made to an error handler so far, in order. */
    var reported: seq<Report>
    /** Every occurrence the user callback was invoked for, in order. */
    ghost var serviced: seq<Time>

    /** Whether done closure `k` has been called. */
    predicate Called(k: nat)
      reads this`openDone
    {
      openDone != Some(k)
    }

    /** The invocation in flight belongs to the current generation. */
    ghost predicate CurrentInFlight()
      reads this`openDone, this`doneCallbacks, this`runId
    {
      openDone.Some? && openDone.value < |doneCallbacks| && doneCallbacks[openDone.value].runId == runId
    }

    ghost predicate Valid()
      reads this`schedule, this`isAttached, this`isScheduleRunning, this`isCallbackExecuting
      reads this`timeout, this`nextEvent, this`prevEvent, this`runId, this`doneCallbacks
      reads this`openDone, this`serviced
    {
      WellFormed(schedule) &&
      (isScheduleRunning ==> isAttached && nextEvent.Some?) &&
      // a pending timer always belongs to the running, current generation
      (IsPending(timeout) ==> timeout.value.runId == runId && isScheduleRunning) &&
      (timeout.Some? ==> timeout.value.runId <= runId) &&
      // the busy flag says exactly whether a done closure is still to be called; that
      // closure is of no future generation and serviced the latest occurrence
      (isCallbackExecuting <==> openDone.Some?) &&
      (openDone.Some? ==>
        openDone.value < |doneCallbacks| && doneCallbacks[openDone.value].runId <= runId &&
        prevEvent == Some(doneCallbacks[openDone.value].eventTime)) &&
      (CurrentInFlight() ==> isScheduleRunning && !IsPending(timeout) && nextEvent == prevEvent) &&
      // between invocations the loop always waits for an occurrence not yet serviced
      (isScheduleRunning && prevEvent.Some? && !CurrentInFlight() ==> nextEvent.value > prevEvent.value) &&
      Increasing(serviced) &&
      (prevEvent.Some? <==> serviced != []) &&
      (serviced != [] ==> prevEvent.value == serviced[|serviced| - 1])
    }

    constructor (name: string, schedule: Schedule, isAsync: bool)
      requires WellFormed(schedule)
      ensures Valid()
      ensures this.name == name && this.schedule == schedule && this.isAsync == isAsync
      ensures !isAttached && !isScheduleRunning && !isCallbackExecuting && window == 0
      ensures timeout == None && nextEvent == None && prevEvent == None && runId == 0
      ensures errorHandlers == [] && doneCallbacks == [] && reported == [] && serviced == []
    {
      this.name := name;
      this.schedule := schedule;
      this.isAsync := isAsync;
      window := 0;
      isAttached := false;
      isScheduleRunning := false;
      isCallbackExecuting := false;
      timeout := None;
      nextEvent := None;
      prevEvent := None;
      runId := 0;
      errorHandlers := [];
      doneCallbacks := [];
      reported := [];
      serviced := [];
      openDone := None;
    }

    /** Marks this scheduled task as owned by a live registry. */
    method Attach()
      requires Valid()
      modifies this`isAttached
      ensures Valid() && isAttached
    {
      isAttached := true;
    }

    method StartSchedule(lastKnownEvent: Date?, now: Time) returns (r: Option<StartError>)
      requires Valid()
      modifies this, lastKnownEvent
      ensures Valid()
      ensures runId == old(runId) && schedule == old(schedule) && window == old(window)
      ensures isAttached == old(isAttached) && isCallbackExecuting == old(isCallbackExecuting)
      ensures prevEvent == old(prevEvent) && errorHandlers == old(errorHandlers)
      ensures doneCallbacks == old(doneCallbacks) && openDone == old(openDone)
      ensures reported == old(reported) && serviced == old(serviced)
      ensures !old(isAttached) ==> r == Some(NotAttached) && unchanged(this)
      ensures old(isAttached) && old(isScheduleRunning) ==> r == None && unchanged(this)
      ensures old(isAttached) && !old(isScheduleRunning) ==>
        var lastKnown := if lastKnownEvent == null then None else Some(old(lastKnownEvent.time));
        var first := FirstEvent(schedule, window, lastKnown, prevEvent, now);
        if first.None? then
          r == Some(ScheduleThrew) && unchanged(this)
        else
          r == None && isScheduleRunning && nextEvent == first &&
          timeout == Some(Timer(runId, Delay(first.value, now), false))
      ensures r == None && prevEvent.Some? && !old(isScheduleRunning) ==> nextEvent.value > prevEvent.value
      // the caller's date object is pushed forward by the tolerance when it is consulted
      ensures lastKnownEvent != null ==>
        lastKnownEvent.time == old(lastKnownEvent.time) +
          (if old(isAttached) && !old(isScheduleRunning) && window > 0 && schedule.previous(now).Some?
           then CatchUpTolerance else 0)
    {
      if !isAttached {
        return Some(NotAttached);
      }
      if isScheduleRunning {
        return None;
      }
      var firstEvent := PickFirstEvent(lastKnownEvent, now);
      if firstEvent.None? {
        return Some(ScheduleThrew);
      }
      nextEvent := firstEvent;
      isScheduleRunning := true;
      Run(runId, now);
      r := None;
    }

    /** The part of `startSchedule` that chooses the first occurrence: the catch-up
        check (which pushes the caller's date forward by the tolerance once the previous
        occurrence is known), the fallback to `next`, and the skip loop. */
    method PickFirstEvent(lastKnownEvent: Date?, now: Time) returns (firstEvent: Option<Time>)
      requires WellFormed(schedule)
      modifies lastKnownEvent
      ensures var lastKnown := if lastKnownEvent == null then None else Some(old(lastKnownEvent.time));
        firstEvent == FirstEvent(schedule, window, lastKnown, prevEvent, now)
      ensures lastKnownEvent != null ==>
        lastKnownEvent.time == old(lastKnownEvent.time) +
          (if window > 0 && schedule.previous(now).Some? then CatchUpTolerance else 0)
    {
      firstEvent := None;
      if window > 0 && lastKnownEvent != null {
        var prev := schedule.previous(now);
        if prev.None? {
          return None;
        }
        lastKnownEvent.time := lastKnownEvent.time + CatchUpTolerance;
        if prev.value > lastKnownEvent.time && prev.value > now - window {
          firstEvent := prev;
        }
      }
      if firstEvent.None? {
        firstEvent := schedule.next(now);
        if firstEvent.None? {
          return None;
        }
      }
      if prevEvent.Some? {
        firstEvent := SkipServiced(schedule, firstEvent.value, prevEvent.value);
      }
    }

    method StopSchedule()
      requires Valid()
      modifies this
      ensures Valid()
      ensures !old(isScheduleRunning) ==> unchanged(this)
      ensures old(isScheduleRunning) ==>
        runId == old(runId) + 1 && !isScheduleRunning && !IsPending(timeout) &&
        timeout == (if old(timeout).Some? then Some(old(timeout).value.(cleared := true)) else None)
      ensures schedule == old(schedule) && window == old(window) && isAttached == old(isAttached)
      ensures isCallbackExecuting == old(isCallbackExecuting) && nextEvent == old(nextEvent)
      ensures prevEvent == old(prevEvent) && errorHandlers == old(errorHandlers)
      ensures doneCallbacks == old(doneCallbacks) && openDone == old(openDone)
      ensures reported == old(reported) && serviced == old(serviced)
      // the done closure of an invocation still in flight is now stale
      ensures old(isScheduleRunning) && openDone.Some? ==> doneCallbacks[openDone.value].runId < runId
    {
      if !isScheduleRunning {
        return;
      }
      runId := runId + 1;
      isScheduleRunning := false;
      if timeout.Some? {
        timeout := Some(timeout.value.(cleared := true));
      }
    }

    /** Swaps in a new schedule, restarting the loop around the swap when it was
        running. The restart passes no last known event, so it never catches up. */
    method UpdateSchedule(newSchedule: Schedule, now: Time) returns (r: Option<StartError>)
      requires Valid() && WellFormed(newSchedule)
      modifies this
      ensures Valid()
      ensures schedule == newSchedule
      ensures r != Some(NotAttached)
      ensures runId == old(runId) + (if old(isScheduleRunning) then 1 else 0)
      ensures !old(isScheduleRunning) ==>
        r == None && !isScheduleRunning && nextEvent == old(nextEvent) && timeout == old(timeout)
      ensures old(isScheduleRunning) ==>
        var first := FirstEvent(newSchedule, window, None, prevEvent, now);
        (isScheduleRunning <==> r == None) &&
        (r == None ==> nextEvent == first && timeout == Some(Timer(runId, Delay(first.value, now), false))) &&
        (r != None ==> r == Some(ScheduleThrew) && first.None?)
      // a restart that throws leaves the old event and the cancelled handle in place
      ensures old(isScheduleRunning) && r != None ==>
        nextEvent == old(nextEvent) &&
        timeout == (if old(timeout).Some? then Some(old(timeout).value.(cleared := true)) else None)
      ensures window == old(window) && isAttached == old(isAttached)
      ensures isCallbackExecuting == old(isCallbackExecuting) && prevEvent == old(prevEvent)
      ensures errorHandlers == old(errorHandlers) && doneCallbacks == old(doneCallbacks)
      ensures openDone == old(openDone) && reported == old(reported) && serviced == old(serviced)
    {
      var wasRunning := isScheduleRunning;
      if wasRunning {
        StopSchedule();
      }
      schedule := newSchedule;
      r := None;
      if wasRunning {
        r := StartSchedule(null, now);
      }
    }

    method AddErrorHandler(h: Handler)
      requires Valid()
      modifies this`errorHandlers
      ensures Valid()
      ensures errorHandlers == old(errorHandlers) + [h]
    {
      errorHandlers := errorHandlers + [h];
    }

    /** Removes the first handler identical to `h`; the rest keep their order. */
    method RemoveErrorHandler(h: Handler)
      requires Valid()
      modifies this`errorHandlers
      ensures Valid()
      ensures errorHandlers == RemoveFirst(old(errorHandlers), h)
      ensures h in old(errorHandlers) ==> |errorHandlers| == |old(errorHandlers)| - 1
      ensures h !in old(errorHandlers) ==> errorHandlers == old(errorHandlers)
    {
      var i := 0;
      while i < |errorHandlers|
        invariant 0 <= i <= |errorHandlers|
        invariant errorHandlers == old(errorHandlers)
        invariant h !in errorHandlers[..i]
      {
        if errorHandlers[i] == h {
          RemoveFirstAt(errorHandlers, h, i);
          errorHandlers := errorHandlers[..i] + errorHandlers[i + 1..];
          return;
        }
        assert errorHandlers[..i + 1] == errorHandlers[..i] + [errorHandlers[i]];
        i := i + 1;
      }
      assert errorHandlers[..i] == errorHandlers;
    }

    /** `raiseError`: every handler, in order, is called once with `error`. */
    method RaiseError(error: Option<Fault>)
      modifies this`reported
      ensures reported == old(reported) + Fanout(errorHandlers, error)
    {
      var i := 0;
      while i < |errorHandlers|
        invariant 0 <= i <= |errorHandlers|
        invariant reported == old(reported) + Fanout(errorHandlers[..i], error)
      {
        assert Fanout(errorHandlers[..i + 1], error) == Fanout(errorHandlers[..i], error) + [Report(errorHandlers[i], error)];
        reported := reported + [Report(errorHandlers[i], error)];
        i := i + 1;
      }
      assert errorHandlers[..i] == errorHandlers;
    }

    /** `run`: arms the timer for `nextEvent` under generation `tag`, unless `tag` is stale. */
    method Run(tag: nat, now: Time)
      requires tag == runId ==> nextEvent.Some?
      modifies this`timeout
      ensures tag == runId ==> timeout == Some(Timer(runId, Delay(nextEvent.value, now), false))
      ensures tag != runId ==> timeout == old(timeout)
    {
      if runId != tag {
        return;
      }
      timeout := Some(Timer(tag, Delay(nextEvent.value, now), false));
    }

    /** `createDoneCallback`: a fresh, not yet called closure for generation `tag` and
        occurrence `eventTime`. Only one closure is ever uncalled at a time. */
    method CreateDoneCallback(tag: nat, eventTime: Time) returns (k: nat)
      requires openDone.None?
      modifies this`doneCallbacks, this`openDone
      ensures k == |old(doneCallbacks)|
      ensures doneCallbacks == old(doneCallbacks) + [DoneCallback(tag, eventTime)]
      ensures openDone == Some(k) && !Called(k)
    {
      k := |doneCallbacks|;
      doneCallbacks := doneCallbacks + [DoneCallback(tag, eventTime)];
      openDone := Some(k);
    }

    /** `executeTask` up to the call of the user callback, for a timer armed under
        generation `tag`. Returns the done closure handed to the callback, or None when
        the fire is stale or the previous invocation is still running. The timer
        environment fires a current-generation timer only while it is pending. */
    method Fire(tag: nat) returns (done: Option<nat>)
      requires Valid()
      requires tag == runId ==> IsPending(timeout)
      modifies this
      ensures Valid()
      ensures runId == old(runId) && schedule == old(schedule) && window == old(window)
      ensures isAttached == old(isAttached) && isScheduleRunning == old(isScheduleRunning)
      ensures nextEvent == old(nextEvent) && errorHandlers == old(errorHandlers) && reported == old(reported)
      ensures tag != old(runId) ==> done == None && unchanged(this)
      ensures tag == old(runId) && old(isCallbackExecuting) ==>
        done == None && timeout == None && isCallbackExecuting && prevEvent == old(prevEvent) &&
        doneCallbacks == old(doneCallbacks) && openDone == old(openDone) && serviced == old(serviced)
      ensures tag == old(runId) && !old(isCallbackExecuting) ==>
        done == Some(|old(doneCallbacks)|) && timeout == None && isCallbackExecuting &&
        doneCallbacks == old(doneCallbacks) + [DoneCallback(runId, old(nextEvent).value)] &&
        openDone == done &&
        prevEvent == old(nextEvent) && serviced == old(serviced) + [old(nextEvent).value]
      // occurrences are serviced in strictly increasing order
      ensures done.Some? && old(prevEvent).Some? ==> prevEvent.value > old(prevEvent).value
    {
      if runId != tag {
        return None;
      }
      timeout := None;
      if isCallbackExecuting {
        return None;
      }
      isCallbackExecuting := true;
      var eventTime := nextEvent.value;
      prevEvent := nextEvent;
      serviced := serviced + [eventTime];
      var k := CreateDoneCallback(runId, eventTime);
      done := Some(k);
    }

    /** What calling done closure `k` with `error` at time `now` does. A first call
        clears the busy flag, reports a passed error to every handler and, when the
        closure's generation is still current, moves `nextEvent` past the serviced
        occurrence and re-arms, or stops the loop when the schedule throws (reporting
        the closure's `error` argument again). Any later call reports one protocol
        violation per handler and changes nothing else. */
    twostate predicate DoneEffect(k: nat, error: Option<Fault>, now: Time)
      reads this
    {
      k < |old(doneCallbacks)| &&
      WellFormed(schedule) &&
      schedule == old(schedule) && window == old(window) && isAttached == old(isAttached) &&
      errorHandlers == old(errorHandlers) && prevEvent == old(prevEvent) && serviced == old(serviced) &&
      doneCallbacks == old(doneCallbacks) &&
      var c := old(doneCallbacks[k]);
      if old(Called(k)) then
        reported == old(reported) + Fanout(errorHandlers, Some(DoneCalledTwice)) &&
        openDone == old(openDone) && isCallbackExecuting == old(isCallbackExecuting) &&
        runId == old(runId) && isScheduleRunning == old(isScheduleRunning) &&
        nextEvent == old(nextEvent) && timeout == old(timeout)
      else
        var afterError := old(reported) + (if error.Some? then Fanout(errorHandlers, error) else []);
        Called(k) && !isCallbackExecuting &&
        if c.runId != old(runId) then
          reported == afterError && runId == old(runId) && isScheduleRunning == old(isScheduleRunning) &&
          nextEvent == old(nextEvent) && timeout == old(timeout)
        else
          match NextAfter(schedule, now, c.eventTime)
          case Some(n) =>
            reported == afterError && runId == old(runId) && isScheduleRunning == old(isScheduleRunning) &&
            nextEvent == Some(n) && timeout == Some(Timer(runId, Delay(n, now), false))
          case None =>
            reported == afterError + Fanout(errorHandlers, error) && runId == old(runId) + 1 &&
            !isScheduleRunning && nextEvent == old(nextEvent) && timeout == old(timeout)
    }

    /** Calls done closure `k` with `error` at time `now`. */
    method Done(k: nat, error: Option<Fault>, now: Time)
      requires Valid() && k < |doneCallbacks|
      modifies this
      ensures Valid()
      ensures DoneEffect(k, error, now)
      // a first call of a current-generation closure either re-arms for a later
      // occurrence or stops the loop
      ensures !old(Called(k)) && old(doneCallbacks[k].runId) == old(runId) ==>
        if isScheduleRunning then IsPending(timeout) && nextEvent.value > old(doneCallbacks[k].eventTime)
        else runId == old(runId) + 1
    {
      if Called(k) {
        RaiseError(Some(DoneCalledTwice));
        return;
      }
      FirstCall(k, error, now);
    }

    /** The first call of done closure `k`: it marks the closure called, clears the busy
        flag and reports a passed error; a closure of the current generation then
        re-arms the loop, or stops it when the schedule throws. */
    method FirstCall(k: nat, error: Option<Fault>, now: Time)
      requires Valid() && k < |doneCallbacks| && !Called(k)
      modifies this
      ensures Valid()
      ensures DoneEffect(k, error, now)
    {
      var c := doneCallbacks[k];
      if runId != c.runId {
        Release(k, error);
      } else if NextAfter(schedule, now, c.eventTime).Some? {
        ReleaseAndRearm(k, error, now);
      } else {
        ReleaseAndStop(k, error, now);
      }
    }

    /** The first call of a closure from an older generation. */
    method Release(k: nat, error: Option<Fault>)
      requires Valid() && k < |doneCallbacks| && !Called(k) && doneCallbacks[k].runId != runId
      modifies this
      ensures Valid()
      ensures forall now :: DoneEffect(k, error, now)
    {
      openDone := None;
      isCallbackExecuting := false;
      if error.Some? {
        RaiseError(error);
      }
    }

    /** The first call of a current closure whose schedule yields a following occurrence. */
    method ReleaseAndRearm(k: nat, error: Option<Fault>, now: Time)
      requires Valid() && k < |doneCallbacks| && !Called(k) && doneCallbacks[k].runId == runId
      requires NextAfter(schedule, now, doneCallbacks[k].eventTime).Some?
      modifies this
      ensures Valid()
      ensures DoneEffect(k, error, now)
    {
      var c := doneCallbacks[k];
      openDone := None;
      isCallbackExecuting := false;
      if error.Some? {
        RaiseError(error);
      }
      nextEvent := NextAfter(schedule, now, c.eventTime);
      Run(runId, now);
    }

    /** The first call of a current closure whose schedule throws. */
    method ReleaseAndStop(k: nat, error: Option<Fault>, now: Time)
      requires Valid() && k < |doneCallbacks| && !Called(k) && doneCallbacks[k].runId == runId
      requires NextAfter(schedule, now, doneCallbacks[k].eventTime).None?
      modifies this
      ensures Valid()
      ensures DoneEffect(k, error, now)
    {
      openDone := None;
      isCallbackExecuting := false;
      if error.Some? {
        RaiseError(error);
      }
      runId := runId + 1;
      isScheduleRunning := false;
      RaiseError(error);
    }

    /** The `finally` of `executeTask`, after the user callback's synchronous part: a
        synchronous callback, or an asynchronous one that threw a truthy value, has its
        done closure called at once; an asynchronous callback that returned calls it
        itself later. */
    method FinishCallback(k: nat, outcome: Outcome, now: Time)
      requires Valid() && k < |doneCallbacks|
      modifies this
      ensures Valid()
      ensures var error := if outcome.Threw? then outcome.error else None;
        (!isAsync || error.Some?) ==> DoneEffect(k, error, now)
      ensures isAsync && !(outcome.Threw? && outcome.error.Some?) ==> unchanged(this)
    {
      var error := if outcome.Threw? then outcome.error else None;
      if !isAsync || error.Some? {
        Done(k, error, now);
      }
    }
  }
}
