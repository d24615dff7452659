# schtick: a verified model of the timer-driven run loops

This project models the two run loops of the schtick library in Dafny and proves
their safety properties.

- **`ScheduledTask`** (module `Tasks`) is a named task with one schedule and one
  callback. `startSchedule` picks the first occurrence. A catch-up window may make
  that the previous occurrence, and occurrences already serviced are skipped. The
  task then arms one timer. When the timer fires, the callback runs. A one-shot
  "done" closure ends each invocation and re-arms for the next occurrence.
  A generation counter (`runId`) tags every timer and every done closure.
  `stopSchedule` bumps it, so anything armed under an older generation becomes a
  no-op. Errors are fanned out to an ordered list of error handlers.
- **`Schtick`** (module `Ticker`) is a stand-alone ticker. It has one schedule and
  at most one pending timeout, and it emits a "tick" per occurrence. It is running
  exactly while a timeout is pending (`IsRunning`). Its options are untyped script
  values. They are merged over a fixed default set, and the model applies the same
  truthiness and numeric conversions the script does.

The schedule library is external. It is the datatype `Schedules.Schedule`, with two
total functions `next` and `previous`. `None` stands for "threw" in the task loop and
"returned null" in the ticker. The only assumption made about a schedule is
`WellFormed`: `next(t) > t` and `previous(t) < t`. Time is an integer number of
milliseconds, and the current time is always a parameter named `now`.

Timers are values. For the task, a `Timer` records the generation it was armed under,
its delay, and whether `clearTimeout` cancelled it. `stopSchedule` cancels the handle
but does not drop it. The ticker's `Armed` records the occurrence and the delay. The
task's done closures are an indexed, append-only table (`doneCallbacks`), and each
entry holds its captured generation and its occurrence. A closure is handed out only
while no invocation is running, so at most one closure's `called` flag is ever false.
The task therefore keeps all of the flags as one index, `openDone`: the closure not yet
called, if any. Every call made to an error handler is appended to `reported`. The
ghost field `serviced` holds every occurrence the callback ran for.

The task's object invariant `ScheduledTask.Valid` states the following:
- a pending timer belongs to the current generation of a running loop;
- at most one invocation is in flight, and `isCallbackExecuting` says exactly whether
  one is;
- while the loop waits between invocations, `nextEvent` is strictly after `prevEvent`;
- serviced occurrences strictly increase.

Every public method of `ScheduledTask` keeps `Valid`, and so do the steps `Fire`, `Done`,
`FinishCallback` and the three release steps. The helpers `Run` and `CreateDoneCallback`
are only called inside those methods and do not mention `Valid`.

## Model

| member | source | states |
|---|---|---|
| `Tasks.ScheduledTask.constructor` | lib/ScheduledTask.js:16-55 | a new task is detached, stopped and idle; it has no timer, no events, generation 0, no handlers and window 0 |
| `Tasks.ScheduledTask.Attach` | lib/ScheduledTask.js:30 | the attachment flag that the owning registry sets; the invariant is kept |
| `Tasks.ScheduledTask.StartSchedule` | lib/ScheduledTask.js:112-148 | fails with no change when detached; a no-op when already running; otherwise arms exactly one timer, tagged with the unchanged current generation, for `FirstEvent`, and sets running; if the schedule throws, it fails and leaves the task unchanged; the caller's date moves forward by 1000 ms exactly when it was consulted |
| `Tasks.ScheduledTask.PickFirstEvent` | lib/ScheduledTask.js:120-145 | the chosen first event equals `FirstEvent` of the caller's original date; the date object is pushed forward by the tolerance once the previous occurrence is known |
| `Tasks.FirstCandidate` | lib/ScheduledTask.js:120-134 | the occurrence the start settles on before skipping is one of the schedule's two answers for `now`: `previous(now)` under the catch-up conditions, otherwise `next(now)`; absent when the call it uses throws |
| `Tasks.CatchUpRule` | lib/ScheduledTask.js:120-134 | the first candidate is in the past exactly when the window is positive, a date was given, and the previous occurrence is after that date + 1000 ms and after `now - window`; it is then `previous(now)`; a candidate at or after `now` is `next(now)`; the candidate is absent only when `next(now)` throws or, in the catch-up case, `previous(now)` throws |
| `Tasks.AdvancePast` | lib/ScheduledTask.js:136-143 | following `next` from a candidate ends strictly after the bound and never before the candidate; a candidate already past the bound is kept; the recursion ends because `next` advances |
| `Tasks.SkipServiced` | lib/ScheduledTask.js:136-143 | the skip loop computes `AdvancePast`: its result is strictly after the last serviced occurrence, or it reports that the schedule threw |
| `Tasks.FirstEvent` | lib/ScheduledTask.js:120-145 | when a previous event exists, a restarted loop's first event is strictly after it |
| `Tasks.ScheduledTask.StopSchedule` | lib/ScheduledTask.js:150-159 | a no-op when stopped; otherwise the generation grows by exactly 1, the loop stops, the stored timer is cancelled, and the done closure of an invocation still in flight becomes stale |
| `Tasks.ScheduledTask.UpdateSchedule` | lib/ScheduledTask.js:161-173 | installs the new schedule; the generation grows by 1 exactly when the loop was running; a running loop restarts without catching up and stays running unless the new schedule throws, in which case it keeps its old `nextEvent` and the cancelled handle; a stopped loop stays stopped with its timer and events untouched |
| `Tasks.ScheduledTask.AddErrorHandler` | lib/ScheduledTask.js:189-192 | appends the handler |
| `Tasks.ScheduledTask.RemoveErrorHandler` | lib/ScheduledTask.js:194-204 | the list becomes `RemoveFirst` of the old one: one entry fewer when present, unchanged when absent |
| `Handlers.RemoveFirst` | lib/ScheduledTask.js:194-204 | removing a handler drops exactly one copy of it (as a multiset) and shortens the list by one; an absent handler leaves the list as it was |
| `Handlers.RemoveFirstAt` | lib/ScheduledTask.js:196-201 | splicing at the first identical position gives exactly `RemoveFirst`: the entries before and after it keep their order |
| `Handlers.RemoveFirstKeepsOrder` | lib/ScheduledTask.js:194-204 | the result is the input with one position holding the handler dropped, or the input itself when the handler is absent |
| `Handlers.FirstIndex` | lib/ScheduledTask.js:196-198 | the scan stops at the first identical entry: no earlier entry matches |
| `Tasks.ScheduledTask.RaiseError` | lib/ScheduledTask.js:315-321 | every handler is called once with the error, in list order |
| `Tasks.ScheduledTask.Run` | lib/ScheduledTask.js:214-223 | a stale tag leaves the timer alone; a current tag arms a fresh, uncancelled timer under that tag with delay `Delay(nextEvent, now)` |
| `Schedules.Delay` | lib/ScheduledTask.js:219 | the armed delay is never negative; it reaches the event exactly when the event is in the future, and is 0 when the event is already due |
| `Tasks.ScheduledTask.CreateDoneCallback` | lib/ScheduledTask.js:271-274 | appends a closure that captures the generation and the occurrence; it becomes the one closure not yet called, which requires that no other closure is still open |
| `Tasks.ScheduledTask.Fire` | lib/ScheduledTask.js:229-243 | a stale tag changes nothing; a current fire while the callback is busy only drops the timer handle and invokes nothing; otherwise it sets the busy flag, sets `prevEvent := nextEvent`, hands out one new closure, and the serviced occurrence is strictly after the previous one |
| `Tasks.ScheduledTask.FinishCallback` | lib/ScheduledTask.js:244-261 | a sync callback, or an async one that threw a truthy value, has its done closure called at once with the thrown value; an async callback that returned leaves everything unchanged |
| `Tasks.ScheduledTask.Done` | lib/ScheduledTask.js:271-309 | a repeated call reports one "called more than once" error to every handler and changes nothing else; a first call of a current-generation closure either re-arms for an occurrence after the serviced one or stops the loop with the generation bumped |
| `Tasks.ScheduledTask.FirstCall` | lib/ScheduledTask.js:282-306 | marks the closure called, clears the busy flag and reports a passed error; a stale closure stops there; a current one re-arms, or stops the loop when the schedule throws (`DoneEffect` gives each case) |
| `Tasks.ScheduledTask.Release` | lib/ScheduledTask.js:282-288 | for a closure of an older generation, only the called flag, the busy flag and the error report change; nothing is re-armed |
| `Tasks.ScheduledTask.ReleaseAndRearm` | lib/ScheduledTask.js:282-298 | for a current closure, `nextEvent` becomes `NextAfter` and a fresh timer is armed under the same generation for it |
| `Tasks.ScheduledTask.ReleaseAndStop` | lib/ScheduledTask.js:282-304 | for a current closure whose schedule throws, the generation grows by 1, the loop stops, and the closure's `error` argument is reported again at :304: a second time when it was truthy, once, as none, otherwise |
| `Tasks.NextAfter` | lib/ScheduledTask.js:292-295 | the re-armed occurrence is strictly after both the serviced occurrence and `now`; it is absent exactly when a `next` call threw |
| `Ticker.Create` | lib/Schtick.js:26-96 | fails exactly when `format` is neither an expression nor a schedule object, or the parser throws; otherwise the options are merged over the defaults, `lastTick` is `options.lastTick`, and the ticker is armed by `start` exactly when `autoStart` is truthy |
| `Ticker.MergeOptions` | lib/Schtick.js:80-87 | the merged options have exactly the default keys; each takes the caller's own value when there is one and the default otherwise; other keys are ignored |
| `Ticker.Schtick.IsRunning` | lib/Schtick.js:51-53 | the ticker is running exactly when a timeout is pending; `Start` makes it true exactly when an event exists and `Stop` makes it false |
| `Ticker.Schtick.constructor` | lib/Schtick.js:41-92 | a new ticker holds its schedule and options, takes `lastTick` from the options, and has no pending timeout |
| `Ticker.StartEvent` | lib/Schtick.js:119-129 | the occurrence `start` arms for is one of the schedule's two answers for `now`: `previous(now)` under the four catch-up conditions, with a null `previous` compared as 0, otherwise `next(now)` |
| `Ticker.StartEventRule` | lib/Schtick.js:119-129 | the armed occurrence is in the past exactly when `lastTick` is truthy, `window > 0`, and `previous(now)` is after `now - window` and after `lastTick`; an armed occurrence at or after `now` is `next(now)` |
| `Ticker.StartEventAfterLastTick` | lib/Schtick.js:119-129 | with a last tick not in the future, the armed occurrence is strictly after it, whichever branch is taken |
| `Ticker.Arm` | lib/Schtick.js:131-135 | a timeout is armed exactly when an event was chosen, for that event, with a delay that reaches it |
| `Ticker.Schtick.Start` | lib/Schtick.js:111-136 | a no-op while running; otherwise a date argument replaces `lastTick`, the timeout becomes `Arm(StartEvent(...))`, and the ticker runs exactly when an event was chosen |
| `Ticker.Schtick.Stop` | lib/Schtick.js:138-142 | always leaves the ticker not running (so calling it again changes nothing) |
| `Ticker.Schtick.RunTask` | lib/Schtick.js:166-173 | `lastTick` becomes the intended time in ideal mode and `now` otherwise; the ticker re-arms through `start` before the tick is emitted; a timer that did not fire early never re-arms for the occurrence it just ticked |

Three details of the code that the model keeps:
- The catch-up window test is strict: `prev > now - window` (lib/ScheduledTask.js:127).
- When the schedule throws while a done closure re-arms, the handlers receive the
  closure's own `error` argument (possibly none), not the exception
  (lib/ScheduledTask.js:304).
- `_isAttached` is never set to true in lib/ScheduledTask.js. `Attach` is an explicit
  setter for it.

One behaviour of the code that the model reproduces and that a user should know about:
- Suppose an asynchronous task is stopped and restarted while an invocation from the
  old generation is still open. The new timer's fire finds the callback busy. It drops
  the handle and skips the callback (lib/ScheduledTask.js:234-236).
- When the old closure is then called, it is stale. It clears the busy flag but does
  not re-arm (lib/ScheduledTask.js:288).
- The task is left "running" with no pending timer. `Fire` and `Release` state both
  steps, and `Valid` allows this state.

## Left out

- Schedule parsing and occurrence computation belong to the external schedule libraries. `Schedule` is opaque, with the `WellFormed` assumption; `Ticker.Create` receives the parser as a function.
- `Helpers.toSchedule` and `Helpers.isSchedule` in lib/Helpers.js are duck-typed conversions. `UpdateSchedule` takes an already converted `Schedule`, so the conversion's own throw is not modelled.
- `ref`/`unref` and the `_unref` flag only tell the runtime whether to keep the process alive. They do not affect scheduling.
- Event listeners: registering the tick listener and dispatching `emit` are not modelled. Each emission is recorded in the ghost `ticks` log.
- The wall clock: each operation takes one `now`, which stands for every `Date.now()` and `new Date()` read during that call.
- User callback bodies are not modelled. Their outcome is a parameter. A callback that calls its done closure or another method of its own task while it runs is modelled as `Fire`, then those calls, then `FinishCallback`.
- `RaiseError`: error handlers are assumed to return. Each call is only recorded. A handler that throws would stop `raiseError` at that handler (lib/ScheduledTask.js:317-320), and at lib/ScheduledTask.js:286 would also skip the re-arm. A handler that changes the handler list during `raiseError` is not modelled either.
- `Schedules.Delay`: timer delays are unbounded. Node's `setTimeout` turns a delay above 2^31-1 ms (about 24.8 days) into 1 ms. With that cap, a far occurrence fires at once: `executeTask` runs the callback early, and `runTask` in lib/Schtick.js re-arms and emits the same occurrence again. The model's timers always wait the full delay.
- `Tasks.ScheduledTask.StartSchedule`: the caller's `Date` is assumed to be a distinct object from the task's own dates. The getters at lib/ScheduledTask.js:96-103 return the internal objects, and `_prevEvent`, `_nextEvent` and a closure's `eventTime` share one object (lib/ScheduledTask.js:239-243). So `startSchedule(task.prevEvent)` with a positive window would also move `prevEvent` forward by 1000 ms (lib/ScheduledTask.js:126). The model gives `StartSchedule` a separate `Date` and keeps `prevEvent` unchanged.
- The event loop: each timer fire and each done call is one atomic method. A fire of the current generation is assumed to come from the pending timer, because timers fire once and `clearTimeout` is reliable.
- Script values are simplified. `isDate` becomes a nullable `Date` object. The task's `window` is an integer, so its `typeof` test always passes. Ticker numbers are integers. NaN, Infinity, fractions, invalid dates and numeric strings are not modelled; `Other` is a truthy value that converts to NaN.
- The name-to-task registry (add, remove, shutdown, error relay) is not part of this model.
