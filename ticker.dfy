/** The stand-alone ticker: one schedule, one pending timeout at most, and a "tick"
    event per occurrence. Its options are untyped script values, so the values it
    inspects are modelled with the conversions the script applies to them. */
module Ticker {
  import opened Schedules

  /** The script values an option or a date argument can hold, as far as the ticker
      inspects them. Numbers are integers; `Other` stands for any value that is truthy
      and converts to NaN (a non-numeric string, a plain object, a function). */
  datatype Value = Undefined | Null | Bool(b: bool) | Number(n: int) | DateValue(ms: Time) | Other

  /** How a value behaves in a condition. Every date is truthy. */
  predicate Truthy(v: Value) {
    match v
    case Undefined => false
    case Null => false
    case Bool(b) => b
    case Number(n) => n != 0
    case DateValue(_) => true
    case Other => true
  }

  /** Numeric conversion, as applied by `>` and `-`; None is NaN. A date converts to
      its millisecond value. */
  function ToNumber(v: Value): Option<int> {
    match v
    case Undefined => None
    case Null => Some(0)
    case Bool(b) => Some(if b then 1 else 0)
    case Number(n) => Some(n)
    case DateValue(ms) => Some(ms)
    case Other => None
  }

  /** `a > b`: false whenever either side is NaN. */
  predicate Greater(a: Value, b: Value) {
    ToNumber(a).Some? && ToNumber(b).Some? && ToNumber(a).value > ToNumber(b).value
  }

  /** The default option set; only these keys are ever taken from the caller. */
  const DefaultOptions: map<string, Value> :=
    map["window" := Number(0), "ideal" := Bool(false), "autoStart" := Bool(true), "lastTick" := Null]

  /** The keys of `DefaultOptions`, in the order the merge visits them. */
  const OptionKeys: seq<string> := ["window", "ideal", "autoStart", "lastTick"]

  /** The caller's options merged over the defaults: a default key the caller has as an
      own property takes the caller's value, every other default stays, and keys the
      defaults do not have are ignored. */
  method MergeOptions(supplied: map<string, Value>) returns (merged: map<string, Value>)
    ensures merged.Keys == DefaultOptions.Keys
    ensures forall key :: key in merged ==>
      merged[key] == if key in supplied then supplied[key] else DefaultOptions[key]
  {
    assert forall key :: key in DefaultOptions <==> key in OptionKeys;
    merged := DefaultOptions;
    var i := 0;
    while i < |OptionKeys|
      invariant 0 <= i <= |OptionKeys|
      invariant merged.Keys == DefaultOptions.Keys
      invariant forall key :: key in merged ==>
        merged[key] == if key in supplied && key in OptionKeys[..i] then supplied[key] else DefaultOptions[key]
    {
      var key := OptionKeys[i];
      if key in supplied {
        merged := merged[key := supplied[key]];
      }
      assert OptionKeys[..i + 1] == OptionKeys[..i] + [key];
      i := i + 1;
    }
    assert OptionKeys[..i] == OptionKeys;
  }

  /** The occurrence `start` arms for: `next(now)`, or `previous(now)` when a last tick
      is known, the window is positive, and that previous occurrence lies inside the
      window and after the last tick. None when there is no such occurrence. */
  function StartEvent(s: Schedule, window: Value, lastTick: Value, now: Time): (r: Option<Time>)
    // the armed occurrence is one of the two answers the schedule gives for `now`
    ensures r == s.next(now) || r == s.previous(now)
  {
    var event := s.next(now);
    if Truthy(lastTick) && Greater(window, Number(0)) then
      var prev := s.previous(now);
      var prevValue := if prev.Some? then DateValue(prev.value) else Null;
      if Greater(prevValue, Number(now - ToNumber(window).value)) && Greater(prevValue, lastTick) then prev
      else event
    else event
  }

  /** The ticker's catch-up rule: the armed occurrence lies in the past exactly when a
      last tick is known, the window is positive and the previous occurrence is inside
      the window and after the last tick; one at or after `now` is the next occurrence. */
  lemma StartEventRule(s: Schedule, window: Value, lastTick: Value, now: Time)
    requires WellFormed(s)
    ensures var r := StartEvent(s, window, lastTick, now);
      (r.Some? && r.value < now) <==>
        (Truthy(lastTick) && Greater(window, Number(0)) && s.previous(now).Some? &&
         s.previous(now).value > now - ToNumber(window).value &&
         Greater(DateValue(s.previous(now).value), lastTick))
    ensures var r := StartEvent(s, window, lastTick, now);
      r.Some? && r.value >= now ==> r == s.next(now)
  {
  }

  /** Whatever the catch-up decision, the armed occurrence is later than a last tick
      that is not in the future: a tick recorded at or before `now` is never repeated. */
  lemma StartEventAfterLastTick(s: Schedule, window: Value, last: Time, now: Time)
    requires WellFormed(s) && last <= now
    ensures var r := StartEvent(s, window, DateValue(last), now);
      r.Some? ==> r.value > last
  {
    var r := StartEvent(s, window, DateValue(last), now);
    if r.Some? && r.value < now {
      assert Greater(DateValue(s.previous(now).value), DateValue(last));
    }
  }

  /** The timeout `start` leaves behind for `event` at time `now`. */
  function Arm(event: Option<Time>, now: Time): (t: Option<Armed>)
    ensures t.Some? <==> event.Some?
    ensures t.Some? ==> t.value.event == event.value && now + t.value.delay >= event.value
  {
    if event.Some? then Some(Armed(event.value, Delay(event.value, now))) else None
  }

  /** A pending timeout: the occurrence it will tick for and the delay it was armed with. */
  datatype Armed = Armed(event: Time, delay: nat)

  /** One emitted "tick": the occurrence, and whether the ticker had already re-armed. */
  datatype Tick = Tick(intendedTime: Time, rearmed: bool)

  /** The `format` argument: an expression to hand to the schedule parser, a schedule
      object, or anything else. */
  datatype Format = Expression(text: string) | ScheduleObject(schedule: Schedule) | NotASchedule

  /** The `options` argument: an object, a function (taken as the tick listener), or
      anything else (ignored). */
  datatype OptionsArg = OptionsObject(fields: map<string, Value>) | TaskFunction | NoOptions

  datatype CreateError = BadFormat | ParseFailed

  datatype Created = Ok(ticker: Schtick) | Failed(error: CreateError)

  /** The schedule a valid `format` denotes, given the external parser. */
  function ScheduleOf(format: Format, parse: string -> Option<Schedule>): Option<Schedule> {
    match format
    case Expression(text) => parse(text)
    case ScheduleObject(s) => Some(s)
    case NotASchedule => None
  }

  /** The caller's own option properties, as far as the merge reads them. */
  function SuppliedOptions(arg: OptionsArg): map<string, Value> {
    if arg.OptionsObject? then arg.fields else map[]
  }

  /** The construction: validates `format`, merges the options, takes the last tick from
      them, and starts at once when `autoStart` is truthy. `parse` is the external
      expression parser; None means it threw. */
  method Create(format: Format, optionsArg: OptionsArg, parse: string -> Option<Schedule>, now: Time)
    returns (r: Created)
    ensures r.Failed? <==> ScheduleOf(format, parse).None?
    ensures format.NotASchedule? ==> r == Failed(BadFormat)
    ensures format.Expression? && parse(format.text).None? ==> r == Failed(ParseFailed)
    ensures r.Ok? ==>
      var t := r.ticker;
      var supplied := SuppliedOptions(optionsArg);
      fresh(t) && t.Valid() && t.schedule == ScheduleOf(format, parse).value &&
      (forall key :: key in t.options ==>
        t.options[key] == if key in supplied then supplied[key] else DefaultOptions[key]) &&
      t.lastTick == t.options["lastTick"] && t.ticks == [] &&
      t.timeout == if Truthy(t.options["autoStart"])
        then Arm(StartEvent(t.schedule, t.options["window"], t.lastTick, now), now)
        else None
  {
    var schedule: Schedule;
    match format {
      case Expression(text) =>
        var parsed := parse(text);
        if parsed.None? {
          return Failed(ParseFailed);
        }
        schedule := parsed.value;
      case ScheduleObject(s) =>
        schedule := s;
      case NotASchedule =>
        return Failed(BadFormat);
    }
    var options := MergeOptions(SuppliedOptions(optionsArg));
    var ticker := new Schtick(schedule, options);
    if Truthy(ticker.options["autoStart"]) {
      ticker.Start(Undefined, now);
    }
    return Ok(ticker);
  }

  class Schtick {
    var schedule: Schedule
    var options: map<string, Value>
    var lastTick: Value
    /** The pending timeout (`__timeout`); None is null. */
    var timeout: Option<Armed>
    /** Every "tick" emitted so far. */
    ghost var ticks: seq<Tick>

    ghost predicate Valid()
      reads this`options
    {
      options.Keys == DefaultOptions.Keys
    }

    /** `isRunning`: a timeout is pending. */
    predicate IsRunning()
      reads this
    {
      timeout.Some?
    }

    constructor (schedule: Schedule, options: map<string, Value>)
      requires options.Keys == DefaultOptions.Keys
      ensures Valid()
      ensures this.schedule == schedule && this.options == options
      ensures lastTick == options["lastTick"] && timeout == None && ticks == []
    {
      this.schedule := schedule;
      this.options := options;
      lastTick := options["lastTick"];
      timeout := None;
      ticks := [];
    }

    /** Arms the timeout for the occurrence `StartEvent` picks, unless one is already
        pending; a date argument replaces the last tick first. */
    method Start(lastKnownEvent: Value, now: Time)
      requires Valid()
      modifies this`lastTick, this`timeout
      ensures Valid()
      ensures old(IsRunning()) ==> lastTick == old(lastTick) && timeout == old(timeout)
      ensures !old(IsRunning()) ==>
        lastTick == (if lastKnownEvent.DateValue? then lastKnownEvent else old(lastTick)) &&
        timeout == Arm(StartEvent(schedule, options["window"], lastTick, now), now)
      ensures !old(IsRunning()) ==>
        (IsRunning() <==> StartEvent(schedule, options["window"], lastTick, now).Some?)
    {
      if IsRunning() {
        return;
      }
      if lastKnownEvent.DateValue? {
        lastTick := lastKnownEvent;
      }
      var event := StartEvent(schedule, options["window"], lastTick, now);
      if event.None? {
        return;
      }
      timeout := Some(Armed(event.value, Delay(event.value, now)));
    }

    /** Cancels the pending timeout, if any. */
    method Stop()
      modifies this`timeout
      ensures !IsRunning()
    {
      timeout := None;
    }

    /** The pending timeout fires at `now`: the last tick becomes the intended time (ideal
        mode) or the present, the ticker re-arms, and only then is the tick emitted. */
    method RunTask(now: Time)
      requires Valid() && IsRunning()
      modifies this`lastTick, this`timeout, this`ticks
      ensures Valid()
      ensures var intended := old(timeout).value.event;
        lastTick == (if Truthy(options["ideal"]) then DateValue(intended) else DateValue(now)) &&
        timeout == Arm(StartEvent(schedule, options["window"], lastTick, now), now) &&
        ticks == old(ticks) + [Tick(intended, IsRunning())]
      // a timer that does not fire early never re-arms for the occurrence it serviced
      ensures var intended := old(timeout).value.event;
        WellFormed(schedule) && intended <= now && IsRunning() ==> timeout.value.event > intended
    {
      var intendedTime := timeout.value.event;
      lastTick := if Truthy(options["ideal"]) then DateValue(intendedTime) else DateValue(now);
      timeout := None;
      Start(Undefined, now);
      ticks := ticks + [Tick(intendedTime, IsRunning())];
      if WellFormed(schedule) && intendedTime <= now {
        StartEventAfterLastTick(schedule, options["window"], lastTick.ms, now);
      }
    }
  }
}
