# tk-maya engine core, modelled in Dafny

This project models the core of the Tank engine for Maya (`engine.py`): how the engine
reacts when a scene is opened or saved, how it starts up, and its synchronous job queue.

- **Scene events** (`scene_events.dfy`, module `SceneEvents`). `on_scene_event_cb` is the
  run-once callback Maya calls on "SceneOpened" and "SceneSaved". It resets the
  "Tank is disabled" menu. Then it either does nothing (File->New, or the same context
  with an engine running), shows the disabled menu (a scene outside every Tank project),
  reports an error, or tears the running engine down and starts a new one.
  - The handler is specified as the list of calls it makes into Maya and the pipeline
    library (`Calls`). The host state it leaves is those calls applied in order (`After`).
  - The class `Maya` runs the handler step by step. It is split into methods at the
    source's block boundaries: the reset, the resolution, the rebuild, and the `except`
    clauses around `start_engine`. `Maya.OnSceneEvent` is proved to make exactly the
    specified calls.
  - Lemmas state what one run does on each path, and what several runs in a row do.
- **Start-up** (`startup.dfy`, module `Startup`). These are the checks `init_engine`
  makes, in order: platform, Maya version, a context with an entity or a project, and
  folders on disk.
- **Job queue** (`job_queue.dfy`, module `JobQueue`, and `maya_engine.dfy`, class
  `MayaEngine.Engine`).
  - `Drain` is the order in which `execute_queue` runs the items, including the items
    they add while it drains. `RunLog` is what it sends to the progress bar and to the
    exception log for one item.
  - `Engine.ExecuteQueue` is the imperative loop, proved to produce exactly that log and
    to end with an empty queue.
  - A queued callable is a `Job`: the percentages it reports through
    `progress_callback`, the items it adds through `add_to_queue`, and whether it then
    raises.
- `Engine.armed` is the part of Maya's list of script jobs that one engine's start-up
  adds; `SceneEvents.Host.armed` is the whole list. `Step` applies a started engine's
  start-up as the same `SceneCallbacks(instanceName, context)` that `Engine.InitEngine`
  is proved to append.
- `tank.dfy` (module `Tank`) holds the shared values: entities, contexts, engine handles
  and the one-shot scene callbacks.

Things the pipeline library or Maya decides are parameters: whether a path belongs to a
Tank project and its context (`Resolution`), what `start_engine` does (`StartOutcome`),
the platform and version `cmds.about` reports, the folder lookup `paths_from_entity`, and
whether Maya runs in batch mode.

Where the code departs from the documented design of the engine, the model follows the code:

- A scene outside every Tank project (`TankError` from `tank_from_path`, engine.py:53-59)
  returns before any teardown. The running engine stays current. Only its `TankMenu` is
  deleted, by `create_tank_disabled_menu` (`UnrecognisedSceneKeepsEngine`).
- An exception raised by `context_from_path` (engine.py:61), `TankError` included, reaches
  the outer catch-all. It gets the error display, not the disabled menu.
- The "same context" short-cut (engine.py:65) applies only while an engine runs. With
  none running, the same context starts a new engine (`TeardownBeforeStart`).
- An unexpected exception from `start_engine` comes after the teardown, which is not
  undone (`OtherErrorsReportedNotRolledBack`).
- `report_progress` does not clamp: reporting a lower percentage steps the bar back
  (`DecreasingPercentStepsBack`).
- `destroy_engine` (engine.py:204-206) deletes the engine's menu handle without asking
  whether it exists. The handle is made only outside batch mode (engine.py:195-196), and
  an unrecognised scene deletes `TankMenu` by name (engine.py:118-119). In batch mode, or
  after such a detour, the teardown at engine.py:73 raises: nothing is started, the
  catch-all shows the error display, and the old engine can never be replaced
  (`FailedTeardownStopsRebuild`, `StuckEngineStays`, `NoSwitchAfterDetour`).
- Only the `TankEngineInitError` path re-arms the callbacks. The other early returns leave
  the used-up run-once callback unrenewed (see Findings).

## Model

| member | source | states |
|---|---|---|
| `SceneEvents.Maya.OnSceneEvent` | engine.py:28-97 | makes exactly the calls `Calls` lists for the host state on entry, in order (the disabled-menu reset, then the path the scene and the pipeline's answers select), and leaves the host in `After`, those calls applied in order |
| `SceneEvents.Maya.Perform` | engine.py:184-206 | one call's effect on the host: destroying an engine whose menu handle exists (outside batch mode, `TankMenu` not deleted since) empties the slot and deletes `TankMenu`, and otherwise raises and changes nothing; a started engine becomes current, arms its own two callbacks and, outside batch mode, creates `TankMenu`; registering adds one callback; the call is appended to the record |
| `SceneEvents.Maya.ResetDisabledMenu` | engine.py:40-42 | deletes `TankMenuDisabled` exactly when it exists; afterwards it does not exist and nothing else has changed |
| `SceneEvents.Maya.Respond` | engine.py:44-66 | after the reset: no calls for an unnamed scene; the info message and the disabled menu for an unrecognised scene; the error display when resolution raises; no calls when an engine runs and the context equals `prevContext`; otherwise the rebuild |
| `SceneEvents.Maya.DestroyEngine` | engine.py:204-206 | the teardown raises exactly in batch mode or when `TankMenu` no longer exists; its effect on the host is `Step`'s for `Destroy` |
| `SceneEvents.Maya.Rebuild` | engine.py:68-97 | destroys the engine read on entry, if any; if that raised, shows the error display and stops; otherwise makes one start attempt for the new context, then reacts to its outcome |
| `SceneEvents.Maya.ReactToStart` | engine.py:76-97 | after a successful start, nothing more; after `TankEngineInitError`, the info message, the disabled menu and the "SceneOpened"/"SceneSaved" callbacks with the handler's own engine name and previous context; after any other exception, the error display |
| `SceneEvents.Maya.CreateTankDisabledMenu` | engine.py:114-123 | deletes `TankMenu` if and only if it exists, then creates `TankMenuDisabled`; afterwards only the disabled menu exists |
| `SceneEvents.ResetComesFirst` | engine.py:40-42 | when the disabled menu exists, deleting it is the handler's first call, on every path |
| `SceneEvents.NewSceneChangesNothing` | engine.py:44-47 | an unnamed scene (File->New): the reset is the only call and the only change |
| `SceneEvents.UnrecognisedSceneKeepsEngine` | engine.py:53-59 | a scene outside every Tank project: the info message is shown and the disabled menu replaces `TankMenu`; no engine is destroyed or started and no callback is registered |
| `SceneEvents.SameContextIsNoOp` | engine.py:61-66 | with an engine running and the scene resolving to `prevContext`, the reset is the only call and the only change |
| `SceneEvents.TeardownBeforeStart` | engine.py:65-77 | the engine calls are exactly: destroy the engine running on entry (if any), then one start attempt if that teardown returned, and only when a rebuild is decided; no engine call on any other path |
| `SceneEvents.OnlyInitErrorRearms` | engine.py:76-85 | the handler registers callbacks if and only if it rebuilt, the teardown returned and the start raised `TankEngineInitError`, and then exactly the two one-shot callbacks with its engine name and previous context |
| `SceneEvents.StartFailureDisables` | engine.py:72-85 | after `TankEngineInitError`: no engine is current, `TankMenu` is gone, the disabled menu exists, and the two callbacks are added to those already armed |
| `SceneEvents.StartSuccessInstallsEngine` | engine.py:72-87 | after a successful start: the new engine is current, its two callbacks are armed, no disabled menu is left, and `TankMenu` exists outside batch mode |
| `SceneEvents.SwitchBindsNewContext` | engine.py:61-76 | when `start_engine` returns an engine for the handler's engine name and the resolved context, the current engine is bound to that new context and its callbacks for that context are armed |
| `SceneEvents.FailedTeardownStopsRebuild` | engine.py:72-97 | when a rebuild is decided but the running engine's menu handle is gone: the calls are the reset, the teardown and the error display; no start, no registration; the engine stays current and nothing else changes |
| `SceneEvents.StuckRunKeepsEngine` | engine.py:28-97 | once the running engine's teardown would raise, one handler run, whatever the scene and the pipeline's answers, keeps that engine and leaves its teardown raising |
| `SceneEvents.StuckEngineStays` | engine.py:28-97 | from such a host no sequence of firings ever changes the current engine |
| `SceneEvents.NoSwitchAfterDetour` | engine.py:53-73 | after an unrecognised scene and a return to the engine's context, no later firing replaces the engine |
| `SceneEvents.OtherErrorsReportedNotRolledBack` | engine.py:88-97 | the error display happens if and only if resolution raised, or a rebuild's teardown raised, or its start raised something other than `TankEngineInitError`; after a resolution error nothing else changed; after a start error the old engine stays destroyed |
| `SceneEvents.StableContextNeverRebuilds` | engine.py:63-66 | with an engine running, any number of firings that keep the context never destroy or start an engine, and the same engine stays current |
| `SceneEvents.MenusLostAfterDetour` | engine.py:53-66 | opening an unrecognised scene and then a scene in the running engine's context keeps the engine but leaves neither `TankMenu` nor the disabled menu |
| `SceneEvents.Disarm` | engine.py:83-85 | a run-once callback that runs is removed once from the armed callbacks and every other one stays |
| `SceneEvents.SameContextSaveGoesDeaf` | engine.py:63-66 | after a running engine's start-up callbacks, a save in the same context leaves no "SceneSaved" callback armed |
| `SceneEvents.EarlyOpenGoesDeaf` | engine.py:44-59 | after a running engine's start-up callbacks, a File->New or an unrecognised scene leaves no "SceneOpened" callback armed |
| `SceneEvents.CatchAllGoesDeaf` | engine.py:72-97 | after a running engine's start-up callbacks, an open that switches context and ends in the catch-all (the start or the teardown raised) leaves no "SceneOpened" callback armed; after a failed start also no engine and neither menu |
| `SceneEvents.RearmedKeepsListening` | engine.py:76-86 | the corrected handler `RearmedCalls` always leaves a callback for the event that ran it armed, on every path |
| `Startup.Validate` | engine.py:136-171 | the first failing check in source order, or the entity whose folders were found; succeeds if and only if all checks pass; the platform, version and no-project errors each if and only if that check is the first to fail; the no-folders error only with a project or entity whose lookup found nothing |
| `MayaEngine.Engine.InitEngine` | engine.py:134-186 | returns what `Validate` gives; on success the queue is empty and the "SceneOpened" and "SceneSaved" callbacks with the engine's instance name and context are armed; on failure nothing changes |
| `MayaEngine.Engine.AddToQueue` | engine.py:307-316 | appends one item, with the given name, callable and arguments, at the tail; nothing else changes |
| `MayaEngine.Engine.ReportProgress` | engine.py:318-326 | steps the bar by the new percentage minus the last one and then remembers the new percentage |
| `MayaEngine.Engine.RunCallable` | engine.py:352-356 | a callable's reports reach the bar as the differences between consecutive percentages, and its items are appended at the tail in order |
| `MayaEngine.Engine.Process` | engine.py:348-360 | starts from 0, calls the item with its arguments plus `progress_callback`, and logs the exception if it raised; the items it added are at the tail |
| `MayaEngine.Engine.ExecuteQueue` | engine.py:328-362 | ends with an empty queue; the log gains exactly the items' calls in `Drain` order (begin bar, call, steps from 0, exception if raised, end bar); the progress left is the last item's last report |
| `JobQueue.Drain` | engine.py:336-340 | every item runs exactly once, those added while draining included: the run has `Weight(q)` items |
| `JobQueue.DrainAppend` | engine.py:336-340 | draining `a + b` runs `a` in order, then drains `b` followed by what `a` added |
| `JobQueue.FirstInFirstOut` | engine.py:336-340 | the queued items run first, in queue order, whatever they raise, and only then the items they added |
| `JobQueue.StepsAreDifferences` | engine.py:318-326 | one step per report, each the percentage minus the one before it (0 for an item's first) |
| `JobQueue.StepsTelescope` | engine.py:318-326 | an item's steps add up to its last reported percentage minus the starting one |
| `JobQueue.DecreasingPercentStepsBack` | engine.py:323-325 | reporting 60 then 40 steps the bar by 60 and then by -20 |
| `JobQueue.RunLogsBracketed` | engine.py:342-362 | begin and end of the progress bar alternate, every other call falls between them, and none is left open, whether or not items raise |
| `JobQueue.OneBarPerItem` | engine.py:342-362 | one begin and one end of the bar per item run |
| `JobQueue.DrainLog` | engine.py:336-362 | draining logs the queued items' calls before those of the items they added; the log is bracketed; there are `Weight(q)` begins and as many ends |

## Left out

- Logging is not modelled. This covers `log_debug`, `log_info`, `log_warning` (including the deprecation warnings at engine.py:311 and 331), `log_error` and the text of `log_exception`. It also covers the traceback message (engine.py:89-96). The model records only that the error display or the exception log happens.
- `tank_disabled_message` (engine.py:99-111) is the dialog behind the disabled menu's item; the model records only that the menu exists.
- `_set_project`, `_init_pyside` and `post_app_init`'s menu generator are not part of this model. What `post_app_init` (creating `TankMenu` outside batch mode) and `destroy_engine` (deleting it, or raising when its handle is gone) do to the menus is folded into `Step`.
- The pipeline library's `destroy()`, which calls `destroy_engine`, is not part of this model. The model takes it to clear the current-engine slot only when `destroy_engine` returns, so a raising teardown leaves the old engine current.
- Deleting a UI element that no longer exists is taken to raise, as Maya's `deleteUI` does for an unknown object.
- The pipeline library's calls (`current_engine`, `tank_from_path`, `context_from_path`, `start_engine`, `paths_from_entity`) are parameters. Exceptions from `tank_from_path` other than `TankError`, and any exception from `context_from_path`, are all `ResolutionRaised`.
- Apart from the teardown above, Maya's own calls never fail in the model: `pm.menu`, the guarded `deleteUI` calls (engine.py:41-42, 118-119), `scriptJob` and `progressBar` are assumed to return.
- `init_engine` raises `TankError`; turning it into the `TankEngineInitError` that the handler catches belongs to `start_engine`, which is not part of this model. `StartOutcome.InitError` stands for that, and is not derived from `Validate`.
- Only whether the scene name is empty matters. The `abspath` conversion is not modelled.
- `Replay` runs the handler once per firing. It neither removes the callback that fired nor requires one to be armed. Maya's `runOnce` removal is modelled by `Disarm` and used in the lemmas about re-arming.
- `init_engine` arms its callbacks after `_set_project` and `_init_pyside`, which can raise; those failures are not modelled.
- Context fields are `Option`s. An entity dictionary that is present but empty, and therefore false in Python, is not modelled.
- The queue's progress-bar handle (engine.py:333) is not modelled; the event log stands in for the bar.
- A queued callable is only what the queue can observe: its reports, the items it adds and whether it raises. A callable that raises part-way is a `Job` whose lists stop there. Reports and `add_to_queue` calls touch separate state, so their interleaving does not matter.
- A callable that calls `execute_queue` itself, or never returns, is not modelled. A callable that keeps re-queuing itself forever cannot be expressed, because a `Job` is a finite value; in Python, `execute_queue` would then never return.
- A callable that rejects its keyword arguments raises `TypeError`; in the model that is a `Job` that raises.
- The source writes `progress_callback` into the stored arguments dictionary. The model adds the keyword only to the call's arguments. Adding the keyword again changes nothing, so only other holders of that dictionary could see the difference.
- `_queue` and `_current_progress` exist in the source only once `init_engine` or `execute_queue` has set them. The model's constructor starts them empty and at 0, so the `AttributeError` of `add_to_queue` before start-up is not modelled.

## Findings

| source | as written | input that shows it | evidently intended | confidence | as-written member | corrected member |
|---|---|---|---|---|---|---|
| engine.py:63-66 | the callbacks are registered `runOnce`, and the same-context return renews none | an engine running in context C; the scene is saved and resolves to C; the "SceneSaved" callback is used up and no callback for "SceneSaved" is left, so later saves never reach the handler | the handler keeps listening: re-arm the callback that ran it when no engine is started | medium, not executed | `SceneEvents.SameContextSaveGoesDeaf` | `SceneEvents.RearmedKeepsListening` |
| engine.py:44-59 | the File->New return and the unrecognised-scene return renew no callback | an engine running after start-up; File->New, or opening a file outside every Tank project, uses up the "SceneOpened" callback and leaves none, so later opens never reach the handler | re-arm the callback that ran the handler on these returns as well | medium, not executed | `SceneEvents.EarlyOpenGoesDeaf` | `SceneEvents.RearmedKeepsListening` |
| engine.py:88-97 | the catch-all shows the error display and renews no callback | an engine running after start-up; opening a scene in another context whose start raises something other than `TankEngineInitError` (or whose teardown raises) uses up the "SceneOpened" callback and leaves none | re-arm the callback that ran the handler in the catch-all as well | medium, not executed | `SceneEvents.CatchAllGoesDeaf` | `SceneEvents.RearmedKeepsListening` |

`SceneEvents.RearmedCalls` is the corrected handler. It is the handler's calls plus the
re-registration of the callback that ran it, on every path that neither starts an engine
nor takes the `TankEngineInitError` path, the catch-all included. `Maya.OnSceneEvent` keeps the as-written
behaviour, because it models the code Maya runs.
