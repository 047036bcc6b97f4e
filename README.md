# wallman core, modelled in Dafny

wallman is a wallpaper daemon for the Sway compositor. A trigger decides
which image each output (monitor) should show. There are three kinds:

- a static trigger, which fires once;
- a day/night trigger, driven by the clock hour and a configured `"HH-HH"` day range;
- a weather trigger, driven by a rate-limited request to a forecast service.

Each trigger resolves its per-output configuration against the outputs the
compositor reports. An exact output name beats the `"*"` wildcard. The
trigger emits one change per output whose state flipped. `apply` kills the
output's old `swaybg` renderer, reaps it, and registers a new one. The
trigger manager evaluates the due triggers in order, then reschedules each
of them one interval later. The daemon manager keeps the daemon's PID in a
PID file; `start`, `stop`, `restart`, `status` and the SIGTERM handler act
on it. Two smaller commands are also modelled:

- the pack installer, which reads a pack's manifest, sanitises its name and refuses archives with `..` paths (a manifest name with no letter, digit, `-` or `_` sanitises to the empty name, and the pack then unpacks straight into the decompression folder);
- the completion command, which detects the user's shell and decides where its completion file goes.

The model has one module per source file, plus four shared modules:

- `Types`: Option and Result;
- `Text`: ASCII character classes, lower-casing, split, trim, decimal `u32` printing and parsing;
- `Paths`: `Path::join`, components, file name and file stem;
- `Config`: the configuration fields the core reads.

Parts of the source change state in place, and these are classes:

- `AppState`;
- the three triggers and `TriggerManager`;
- the process tracker (`ProcessTracker`);
- `DaemonManager`;
- `PackInstaller`.

Each of their methods is proved against a function of the old state. The
pure parts are functions, with lemmas about them.

The outside world becomes parameters:

- the clock: `now` and `hour`;
- the `swaymsg` enumeration: `EnumeratorRun`;
- the HTTP answer: `ApiOutcome`;
- renderer launches: `launch`;
- which processes are alive and whether signals and spawns succeed: `World`;
- which directories and files exist: `dirs` and `existing`;
- the home directory and environment variables;
- manifest decoding: `decode`.

While a trigger evaluates, it sees the application state as a value
(`StateView`). The source holds the state lock for the whole evaluation, so
nothing else can change that state meanwhile.

## Model

| member | source | states |
|---|---|---|
| Text.Trim | src/daemon/manager.rs:166 | the result is the input with its leading and trailing ASCII whitespace removed (a slice `s[a..b]` with only whitespace outside it), neither end of it is whitespace, and a string already without it is unchanged |
| Text.ParseU32 | src/daemon/manager.rs:166 | a parsed value fits in a `u32`; the error is "cannot parse integer from empty string" exactly for the empty string, and otherwise "invalid digit found in string" or "number too large to fit in target type", as `u32::from_str` reports |
| Text.OverflowIffTooLarge | src/daemon/manager.rs:166 | for a string of digits (after an optional `+`), parsing fails with the too-large message exactly when the value is at least 2^32, and succeeds exactly when it is below |
| Text.DigitsValuePrefix | src/daemon/manager.rs:166 | a prefix of a digit string has no larger value, so the digits scanned so far never overshoot the whole |
| Text.ParseErrorExamples | src/daemon/manager.rs:166 | the empty string gives the empty-string error, and `+`, `-1` and `1x` give the invalid-digit error |
| Text.DecimalParses | src/daemon/manager.rs:166-176 | a `u32` written in decimal parses back to itself, trimmed or not |
| Text.SplitStep | src/triggers/daytime_trigger.rs:39-45 | splitting yields the text before the first separator, then the split of the rest |
| Text.SplitAppend | src/format/install.rs:80 | splitting at a separator splits both sides independently |
| Paths.JoinEndsWith | src/app_state.rs:124-128 | `base.join(p)` ends with `p` |
| Paths.JoinAbsolute | src/app_state.rs:124-128 | joining onto an absolute base gives an absolute path |
| Paths.FileName | src/format/install.rs:51-54 | a file name is a non-empty component other than `.` and `..`, without `/` |
| Paths.FileStem | src/format/install.rs:40-45 | a file stem exists exactly when a file name does; it is that name minus its last extension (the name is the stem plus a suffix that is empty or one `.` and no further dot, and a stem without a suffix has no dot after its first character), and it is not empty |
| Paths.StemExample | src/format/install.rs:40-45 | `a.tar.gz` has the stem `a.tar` |
| Paths.JoinEmpty | src/format/install.rs:80 | joining the empty name adds no component |
| Paths.JoinName | src/format/install.rs:80 | joining a plain name keeps the directory as a prefix and adds the name as one more component |
| Paths.JoinAllPrefix | src/format/install.rs:108 | joining components onto a directory keeps the directory as a text prefix |
| Paths.JoinAllComponents | src/format/install.rs:108 | joining components onto a directory extends its components by exactly those |
| Resolver.FromOutputs | src/outputs/resolver.rs:17-24 | the resolver keeps exactly the output list it was given |
| Resolver.ActiveNamesAppend | src/outputs/resolver.rs:86-90 | keeping active records distributes over concatenation, so names stay in enumeration order |
| Resolver.ActiveNamesMembers | src/outputs/resolver.rs:86-90 | a name is listed exactly when some active record carries it |
| Resolver.ParseExample | src/outputs/resolver.rs:137-143 | the source's test: one active and one inactive output give just the active name |
| Resolver.ParseOutputs | src/outputs/resolver.rs:84-94 | undecodable enumeration output is an error; otherwise the result is the active names |
| Resolver.DetectOutputs | src/outputs/resolver.rs:49-75 | failing to run `swaymsg` or a non-zero exit gives no outputs (not an error); the only error is undecodable output |
| Resolver.ResolvedRule | src/outputs/resolver.rs:32-45 | an output is resolved iff it is listed and the map has its name or the wildcard; an exact entry beats the wildcard |
| Resolver.ResolveMap | src/outputs/resolver.rs:32-45 | the loop builds the map `Resolved` describes, with the membership and exact-before-wildcard rule |
| Resolver.ExactBeatsWildcard | src/outputs/resolver.rs:101-112 | the source's test: the exact entry for HDMI-1, the wildcard for DP-1 |
| Resolver.WildcardOnly | src/outputs/resolver.rs:115-125 | a wildcard-only map sends every listed output to the wildcard's value |
| Resolver.EmptyMapResolvesToNothing | src/outputs/resolver.rs:128-135 | an empty map resolves no output |
| Trigger.Single | src/triggers/trigger.rs:20-27 | exactly one change, for the given output and image; the batch is not empty |
| StaticTriggers.CollectChanges | src/triggers/static_trigger.rs:56-72 | the batch has exactly one change per resolved entry with an image, carrying the pool-resolved path; entries without an image are skipped |
| StaticTriggers.EmittedRule | src/triggers/static_trigger.rs:53-72 | an output is emitted iff it is detected, covered by its own or the wildcard entry, and that entry names an image; its path is that image resolved against the pool |
| StaticTriggers.StaticTrigger.constructor | src/triggers/static_trigger.rs:17-19 | a new static trigger has not fired |
| StaticTriggers.StaticTrigger.Init | src/triggers/static_trigger.rs:23-25 | init always succeeds |
| StaticTriggers.StaticTrigger.Evaluate | src/triggers/static_trigger.rs:27-81 | once fired it returns nothing; otherwise a detection error is returned, no background or no change gives nothing, and a non-empty batch of the planned changes marks it fired; it is fired exactly when it has returned a batch |
| DayTime.Bounds | src/triggers/daytime_trigger.rs:39-45 | the two parsed bounds of a range fit in a `u32` |
| DayTime.DefaultRangeBounds | src/triggers/daytime_trigger.rs:29-45 | without a configured range the bounds are 8 and 19 |
| DayTime.DefaultRangeText | src/triggers/daytime_trigger.rs:31-36 | without a configured range, the range is the text `8-19` |
| DayTime.DefaultRangeParts | src/triggers/daytime_trigger.rs:39-45 | `8-19` splits at its dash into `8` and `19`, which parse as 8 and 19 |
| DayTime.OvernightBounds | src/triggers/daytime_trigger.rs:39-45 | `22-6` parses to the bounds 22 and 6 |
| DayTime.DefaultWindow | src/triggers/daytime_trigger.rs:27-59 | with the default range, hours 8 to 18 are day and all others night |
| DayTime.OvernightWindow | src/triggers/daytime_trigger.rs:52-58 | a range that wraps midnight (`"22-6"`) makes 22:00 to 05:59 day |
| DayTime.EqualBoundsAlwaysDay | src/triggers/daytime_trigger.rs:52-58 | equal bounds take the overnight branch, so every hour is day |
| DayTime.SwappedBoundsSwapDayAndNight | src/triggers/daytime_trigger.rs:52-58 | for distinct bounds, swapping them swaps day and night at every hour |
| DayTime.ChooseImage | src/triggers/daytime_trigger.rs:134-155 | the day (or night) field is used when it contains `/` or `.`; otherwise the output's background image, else the empty string |
| DayTime.DayFlags | src/triggers/daytime_trigger.rs:123-124 | one flag per resolved output, true exactly when its window contains the hour |
| DayTime.EmittedRule | src/triggers/daytime_trigger.rs:123-174 | an output is emitted iff its day flag differs from the recorded one and a non-empty image is chosen; the change carries that image resolved against the pool |
| DayTime.RecordedOnlyWhenEmitted | src/triggers/daytime_trigger.rs:127-169 | the recorded flag changes only for an emitted output, and an emitted output records its current flag |
| DayTime.RepeatIsQuiet | src/triggers/daytime_trigger.rs:127-129 | a second evaluation with the same flags emits nothing |
| DayTime.DayTimeTrigger.constructor | src/triggers/daytime_trigger.rs:20-24 | no output has a recorded flag |
| DayTime.DayTimeTrigger.Init | src/triggers/daytime_trigger.rs:63-91 | init fails exactly when a day/night configuration exists and output detection fails |
| DayTime.DayTimeTrigger.Sweep | src/triggers/daytime_trigger.rs:121-174 | the loop's batch enumerates exactly the emitted changes, and the recorded flags become `NextLast` |
| DayTime.DayTimeTrigger.Evaluate | src/triggers/daytime_trigger.rs:93-182 | no configuration gives nothing; a detection error is returned unchanged; otherwise the flags are updated to `NextLast` and the result is nothing or a non-empty batch of exactly the emitted changes |
| Weather.FromCodeClassifies | src/triggers/weather_trigger.rs:34-43 | each state is reached from exactly its listed codes; every unlisted code reads as cloudy |
| Weather.Candidates | src/triggers/weather_trigger.rs:194-210 | the state's own configuration key is tried first |
| Weather.CandidatesDisjoint | src/triggers/weather_trigger.rs:194-210 | no key is tried for two states, so an image entry serves one weather state only |
| Weather.FirstPresent | src/triggers/weather_trigger.rs:195-209 | the result is the value of the first key present in the map; none exactly when no key is present |
| Weather.ImageForFallbacks | src/triggers/weather_trigger.rs:194-210 | the image is the state's key, else `clear` (clear), `rainy` (rainy), `stormy` then `ligthing` (stormy); cloudy and snowy have no fallback |
| Weather.FetchStep | src/triggers/weather_trigger.rs:71-121 | a fresh cached state is served without a request; otherwise, with the state lock free, the request's outcome is returned and a success caches the state and the time |
| Weather.RateLimited | src/triggers/weather_trigger.rs:72-81 | within ten minutes of a successful request no request is made and the same state is returned |
| Weather.EvaluateFetchAsWritten | src/triggers/weather_trigger.rs:150-171 | the fetch as `evaluate` performs it, with the state lock held; it is reached exactly when a weather configuration exists |
| Weather.AsWrittenSecondEvaluationSelfLocks | src/triggers/weather_trigger.rs:150-171 | as written, the evaluation after a successful one (a whole interval later) misses the cache and blocks on the lock it holds |
| Weather.AsWrittenFailedInitSelfLocks | src/triggers/weather_trigger.rs:150-171 | as written, if the initial fetch failed, the first evaluation blocks on the lock it holds |
| Weather.FetchUnlockedReturns | src/triggers/weather_trigger.rs:71-121 | fetching with the lock free always returns |
| Weather.EmittedRule | src/triggers/weather_trigger.rs:187-238 | an output is emitted iff its recorded state differs from the current one and its weather map names an image for that state; the change carries that image resolved against the pool |
| Weather.SameWeatherIsQuiet | src/triggers/weather_trigger.rs:189-191 | evaluating again with the same weather emits nothing |
| Weather.VisitOutput | src/triggers/weather_trigger.rs:188-237 | visiting one output appends its change and records its state exactly when it is emitted |
| Weather.SweepOutputs | src/triggers/weather_trigger.rs:187-238 | once every output is visited, the batch enumerates exactly the emitted changes and the memory records the new state of each emitted output |
| Weather.WeatherTrigger.constructor | src/triggers/weather_trigger.rs:60-67 | nothing recorded, no request made, nothing cached |
| Weather.WeatherTrigger.FetchWeather | src/triggers/weather_trigger.rs:71-121 | it follows `FetchStep` with the lock free: it returns the state and the cache moves on, or returns the error and the cache is unchanged |
| Weather.WeatherTrigger.Init | src/triggers/weather_trigger.rs:125-148 | init always succeeds; a weather entry causes one fetch whose failure is ignored |
| Weather.WeatherTrigger.Sweep | src/triggers/weather_trigger.rs:185-238 | the loop's batch enumerates exactly the emitted changes, and the recorded states become `NextLast` |
| Weather.WeatherTrigger.Evaluate | src/triggers/weather_trigger.rs:150-246 | no configuration or a failed fetch gives nothing; a detection error is returned; otherwise the states are updated to `NextLast` and the result is nothing or a non-empty batch of exactly the emitted changes |
| Scheduler.AnyTrigger.Interval | src/triggers/trigger.rs:46-47 | every trigger's interval is positive (60, 60 and 36000 seconds) |
| Scheduler.DueIndicesRule | src/triggers/manager.rs:46-47 | a pass evaluates exactly the due triggers, each once, in registration order |
| Scheduler.Advance | src/triggers/manager.rs:47-66 | a due trigger is rescheduled to now plus its interval, which is in the future; any other trigger keeps its time |
| Scheduler.Rescheduled | src/triggers/manager.rs:46-67 | every entry of the schedule is advanced on its own |
| Scheduler.PassLeavesNothingDue | src/triggers/manager.rs:64-65 | after a pass, nothing is due at the same instant |
| Scheduler.BatchesOnlyFromResults | src/triggers/manager.rs:48-62 | errors and `None` results are never applied; every applied batch is an `Ok(Some(..))` outcome |
| Scheduler.EvaluateAny | src/triggers/trigger.rs:40-44 | the trigger's new state and result are those its own kind's `evaluate` specifies (static, day/night or weather `Evaluated`); a produced batch is never empty |
| Scheduler.InitAny | src/triggers/manager.rs:33-41 | the result and new state are those of the kind's `init`: static and weather never fail, day/night fails exactly when it is configured and detection fails, and only weather init changes state (its cache) |
| Scheduler.RescheduledKeepsTriggers | src/triggers/manager.rs:46-67 | a pass neither adds nor drops a trigger |
| Scheduler.Fire | src/triggers/manager.rs:48-62 | the trigger evaluates as its kind specifies; a batch is applied exactly when the evaluation returned one, and the tracker then becomes what `Apply.Run` gives for that batch, with the result `apply` reports; otherwise the tracker is unchanged |
| Scheduler.FireAt | src/triggers/manager.rs:48-62 | `Fire` on one trigger of the schedule; every other trigger keeps its state |
| Scheduler.BatchAppended | src/triggers/manager.rs:48-62 | applying one more batch continues from the tracker state the earlier batches left, and adds that batch's report |
| Scheduler.BatchFailsIffLaunchFails | src/wallpaper/apply.rs:11-31 | a batch is reported as failed exactly when one of its launches failed |
| Scheduler.BatchesReap | src/triggers/manager.rs:48-62 | every child killed while the batches of a pass are applied is also reaped |
| Scheduler.Visit | src/triggers/manager.rs:46-66 | one iteration of the pass loop: the trigger is rescheduled and, when due, evaluated with its batch applied; the pass record grows by exactly that trigger; a trigger that is not due, and every trigger not yet visited, keeps its state |
| Scheduler.VisitAll | src/triggers/manager.rs:46-67 | the pass loop visits every trigger in order; the tracker ends as the batches applied in order from the starting state; a trigger that was not due keeps its state |
| Scheduler.PassEnds | src/triggers/manager.rs:43-67 | the finished pass loop meets `PassSpec`: exactly the due triggers evaluated, no other trigger's state changed, batches applied in order |
| Scheduler.TriggerManager.constructor | src/triggers/manager.rs:17-21 | no triggers |
| Scheduler.TriggerManager.Add | src/triggers/manager.rs:23-27 | the trigger is appended and due at once |
| Scheduler.TriggerManager.InitAll | src/triggers/manager.rs:32-41 | every trigger is initialised once, in order, its result and new state as its kind's `init` specifies; the schedule is unchanged |
| Scheduler.TriggerManager.Pass | src/triggers/manager.rs:43-67 | `PassSpec`: exactly the due triggers are evaluated, in order, each as its kind specifies, and every trigger that is not due keeps its state; the produced batches are applied in order, so the tracker ends as `AfterBatches` (the fold of `Apply.Run`) and the results are `Reports`; the schedule becomes `Rescheduled` |
| Scheduler.TriggerManager.Tick | src/triggers/manager.rs:43-67 | one iteration of the `run` loop is one pass as `PassSpec` states it, between the trigger states and tracker before and after; it keeps the triggers' objects and kinds |
| Scheduler.TriggerManager.Run | src/triggers/manager.rs:29-72 | every trigger is first initialised once, in order, as its kind's `init` specifies; then pass k starts from the schedule, trigger states and tracker pass k-1 left and meets `PassSpec` (`PassesRecorded`); the final schedule, trigger states and tracker are the last pass's |
| Scheduler.TriggerManager.RunPasses | src/triggers/manager.rs:43-71 | the `loop` of `run`: the passes chain as `Running` records them, starting from the states the init phase left |
| Scheduler.TriggerManager.RunPass | src/triggers/manager.rs:43-67 | one pass extends the record of the run by exactly that pass |
| Scheduler.RunStep | src/triggers/manager.rs:43-71 | appending a pass keeps every earlier pass's record, and the new schedule is the next one `run` lists |
| Scheduler.SchedulesStep | src/triggers/manager.rs:43-71 | pass k of a run reschedules the schedule left by pass k-1 |
| Scheduler.SchedulesKeepTriggers | src/triggers/manager.rs:43-71 | every schedule of a run holds the registered triggers, in their positions |
| Scheduler.AddedIsEvaluatedFirst | src/triggers/manager.rs:23-27 | an added trigger is evaluated by the first pass at or after the time it was added |
| Wallpaper.KillAndReap | src/wallpaper/mod.rs:18-19 | killing a child is immediately followed by reaping it |
| Wallpaper.DrainLogReaps | src/wallpaper/mod.rs:30-33 | draining the tracker reaps each child right after killing it |
| Wallpaper.DrainLogCovers | src/wallpaper/mod.rs:30-33 | the k-th drained output's child is killed, then reaped, at positions 2k and 2k+1 |
| Wallpaper.DrainReapsEveryHandle | src/wallpaper/mod.rs:24-34 | every tracked child is killed and reaped by `kill_all` |
| Wallpaper.ProcessTracker.constructor | src/wallpaper/mod.rs:8-11 | an empty tracker |
| Wallpaper.ProcessTracker.KillForOutput | src/wallpaper/mod.rs:14-21 | the output's entry is removed; its child, if any, is killed then reaped; the rest is unchanged |
| Wallpaper.ProcessTracker.RegisterProcess | src/wallpaper/mod.rs:37-40 | the output now maps to the new child, replacing any previous entry |
| Wallpaper.ProcessTracker.KillAll | src/wallpaper/mod.rs:24-34 | the tracker is empty, and every former entry was killed then reaped, in some order of the outputs |
| Wallpaper.Drain | src/wallpaper/mod.rs:24-34 | the log kills then reaps the child of every drained output, each output once, in some order |
| Apply.RunReaps | src/wallpaper/apply.rs:13-25 | every kill during a batch is followed by a reap of the same child |
| Apply.RunUntouched | src/wallpaper/apply.rs:13-25 | an output no change names keeps its renderer |
| Apply.RunLastChangeDecides | src/wallpaper/apply.rs:13-25 | the last change naming an output decides its renderer: the new child if that launch succeeded, none if it failed |
| Apply.RunLastError | src/wallpaper/apply.rs:11-31 | the error reported is that of the last failed launch; there is none exactly when every launch succeeded |
| Apply.RunKillsOldHandle | src/wallpaper/apply.rs:13-15 | a renderer running before the batch is killed and reaped if some change names its output |
| Apply.ApplyToOutput | src/wallpaper/apply.rs:37-55 | the renderer is launched with `-o output -i image -m fill`; a success registers the child, a failure returns the error and registers nothing |
| Apply.ApplyChange | src/wallpaper/apply.rs:13-25 | one iteration of `apply` is one `Step` of `Run`: the renderer arguments, the tracker and the kept error move as `Run` describes |
| Apply.Apply | src/wallpaper/apply.rs:5-32 | an empty batch does nothing; otherwise every change is applied in order, a failed launch does not stop the batch, and the tracker and the result are the ones `Run` gives |
| Apply.FailedLaunchDoesNotStopBatch | src/wallpaper/apply.rs:13-31 | with two outputs and a failed first launch: the first output ends with no renderer, the second gets its child, and the failure is reported |
| State.ResolvePath | src/app_state.rs:115-134 | an absolute path, or any path without a pool, is kept; otherwise it is joined to `<pool>/images` when that directory exists, else to the pool |
| State.ResolvePathKeepsName | src/app_state.rs:115-134 | the resolved path ends with the path asked for |
| State.ResolvePathIdempotent | src/app_state.rs:115-134 | with no pool or an absolute pool, resolving twice is resolving once |
| State.AppState.constructor | src/app_state.rs:31-43 | the state holds the given configuration, path and pool |
| State.AppState.GetCurrentBackground | src/app_state.rs:62-69 | the image of some background entry; none without entries |
| State.AppState.GetFillMode | src/app_state.rs:71-78 | the fill mode of some background entry; `Fill` without entries |
| State.AppState.UpdateBackground | src/app_state.rs:80-90 | one `"default"` entry replaces all background entries; nothing else changes |
| State.AppState.ReloadConfig | src/app_state.rs:97-112 | a load error is returned and nothing changes; otherwise the new configuration is installed and the pool fields follow it |
| Daemon.ReadPid | src/daemon/manager.rs:161-168 | no file gives no PID; otherwise the trimmed contents must parse as a `u32`, and a failure is an error carrying the parse error's own message |
| Daemon.PidFileWhitespace | src/daemon/manager.rs:161-168 | a PID file holding only whitespace fails with the empty-string message; `7` followed by a form feed reads as PID 7 |
| Daemon.ReadAfterWrite | src/daemon/manager.rs:161-178 | a written PID reads back as itself |
| Daemon.SpawnStep | src/daemon/manager.rs:142-158 | a spawn records a detached daemon and leaves the PID file alone; a failed spawn changes nothing |
| Daemon.StartStep | src/daemon/manager.rs:41-58 | an unreadable file or a live recorded daemon fails and changes nothing; a stale file is removed before spawning |
| Daemon.ForegroundStep | src/daemon/manager.rs:112-114 | the foreground daemon writes its own PID, which reads back; a write failure changes nothing |
| Daemon.StopStep | src/daemon/manager.rs:61-77 | no file means not running; a dead PID removes the file and fails; a live PID is signalled and the file removed; a failed signal keeps the file; it succeeds exactly when a live recorded process is signalled |
| Daemon.RestartStep | src/daemon/manager.rs:80-90 | a live recorded process is signalled and any PID file removed, then a daemon is always spawned; an unreadable file or a failed signal stops it |
| Daemon.StatusOf | src/daemon/manager.rs:93-107 | stopped exactly without a file, running exactly when the recorded process is alive, stale exactly when it is dead |
| Daemon.SigtermStep | src/daemon/manager.rs:221-226 | the SIGTERM handler removes the PID file |
| Daemon.ForegroundThenStop | src/daemon/manager.rs:61-77 | a live foreground daemon can be stopped: it is signalled and its file removed |
| Daemon.ForegroundThenStatus | src/daemon/manager.rs:93-107 | a foreground daemon reports running while alive, and stale after it has died |
| Daemon.StopTwice | src/daemon/manager.rs:61-77 | after a stop that reached the recorded PID, a second stop reports not running |
| Daemon.StartWhileAlive | src/daemon/manager.rs:45-52 | starting while the recorded daemon is alive fails and changes nothing |
| Daemon.StaleThenStart | src/daemon/manager.rs:53-56 | a stale PID file does not block `start` |
| Daemon.RestartSpawns | src/daemon/manager.rs:80-90 | a restart that gets past signalling ends with no PID file and a spawned daemon |
| Daemon.SigtermThenStatus | src/daemon/manager.rs:221-226 | after SIGTERM is handled, status reports stopped |
| Daemon.DaemonManager.constructor | src/daemon/manager.rs:29-32 | the manager over the given PID file, nothing done yet |
| Daemon.DaemonManager.ReadPidFile | src/daemon/manager.rs:161-168 | reads as `ReadPid`, passing on the parse error's message |
| Daemon.DaemonManager.SpawnDetached | src/daemon/manager.rs:142-158 | behaves as `SpawnStep` |
| Daemon.DaemonManager.Start | src/daemon/manager.rs:41-58 | foreground behaves as `ForegroundStep`, otherwise as `StartStep` |
| Daemon.DaemonManager.Stop | src/daemon/manager.rs:61-77 | behaves as `StopStep` |
| Daemon.DaemonManager.Restart | src/daemon/manager.rs:80-90 | behaves as `RestartStep` |
| Daemon.DaemonManager.Status | src/daemon/manager.rs:93-107 | reports `StatusOf` and changes nothing |
| Daemon.DaemonManager.HandleSigterm | src/daemon/manager.rs:221-226 | behaves as `SigtermStep` |
| Daemon.SelectTrigger | src/daemon/manager.rs:244-255 | weather if configured, else day/night if configured, else static; exactly one is chosen |
| Daemon.BuildTriggerManager | src/daemon/manager.rs:231-257 | a new manager holding exactly one new trigger, of the selected kind, due at once |
| Install.DashSpaces | src/format/install.rs:116 | every space becomes `-`; every other character is kept |
| Install.KeepNameChars | src/format/install.rs:117 | only letters, digits, `-` and `_` remain, and every character kept comes from the input; a name made only of them is unchanged |
| Install.KeepNameCharsSingle | src/format/install.rs:117 | one character is kept exactly when it is a letter, digit, `-` or `_` |
| Install.KeepNameCharsAppend | src/format/install.rs:117 | filtering a concatenation concatenates the filtered parts, so with `KeepNameCharsSingle` the result is the input's name characters, all of them, in their order |
| Install.SanitizedCharset | src/format/install.rs:115-119 | a sanitised name holds only lower-case letters, digits, `-` and `_` |
| Install.SanitizedIsComponent | src/format/install.rs:115-119 | a sanitised name has no `/` and no `.`, is not absolute, and cannot climb out of the destination |
| Install.SanitizeIdempotent | src/format/install.rs:115-119 | sanitising twice is sanitising once |
| Install.SanitizeSpaces | src/format/install.rs:115-119 | a name of letters, digits, `-`, `_` and spaces keeps its length: spaces become `-`, letters become lower case |
| Install.DashSpacesExample | src/format/install.rs:116 | `"My Pack!"` becomes `"My-Pack!"` |
| Install.KeepNameCharsExample | src/format/install.rs:117 | `"My-Pack!"` becomes `"My-Pack"` |
| Install.LowerExample | src/format/install.rs:118 | `"My-Pack"` becomes `"my-pack"` |
| Install.SanitizeExample | src/format/install.rs:115-119 | `"My Pack!"` is sanitised to `"my-pack"` |
| Install.FirstManifest | src/format/install.rs:47-55 | the first entry whose file name is `manifest.toml`, or none if there is none |
| Install.FirstUnsafe | src/format/install.rs:91-101 | the first entry with a `..` component, or none if there is none |
| Install.FirstUnsafeIs | src/format/install.rs:91-101 | an unsafe entry with only safe entries before it is the one reported |
| Install.PackName | src/format/install.rs:39-73 | the sanitised manifest name when the first manifest declares one; the file stem (or `"unknown"`) otherwise |
| Install.ManifestNameIsComponent | src/format/install.rs:59-63 | a pack name taken from a manifest is the sanitised name: it has no `/` and no `..` component, and unless it is empty it is exactly one path component |
| Install.EmptyManifestNameExample | src/format/install.rs:61-80 | a manifest name of only `!` gives the empty pack name, and the destination `<destination>/<pack name>` then has the components of the destination itself |
| Install.BangsSanitiseEmpty | src/format/install.rs:115-119 | `"!!!"` sanitises to the empty name |
| Install.TargetInside | src/format/install.rs:104-108 | an entry path without a `..` component unpacks to a target inside the destination: it extends the destination as text and by components, and no added component is `..` |
| Install.TargetsInside | src/format/install.rs:91-108 | when no entry path has a `..` component, every target of the archive lies inside the destination |
| Install.PackInstaller.constructor | src/format/install.rs:19-25 | pack name `"unknown"`; the destination is the decompression folder |
| Install.PackInstaller.ReadManifest | src/format/install.rs:34-77 | an unparsable first manifest gives `InvalidData`, with the default name set; otherwise the name is `PackName` |
| Install.PackInstaller.CreateDestDir | src/format/install.rs:79-83 | the destination becomes `<destination>/<pack name>`, even when creating it fails |
| Install.PackInstaller.UnpackArchive | src/format/install.rs:85-111 | it fails with `InvalidInput`, naming the first unsafe entry and unpacking nothing, exactly when some entry has a `..` component; otherwise it unpacks to `Targets`: each entry's normal components (a leading `/` and `.` dropped) joined under the destination; every target lies inside the destination |
| Install.PackInstaller.Install | src/format/install.rs:27-32 | it succeeds exactly when the first manifest parses, the destination is created and no entry is unsafe; an unparsable manifest is `InvalidData` with the default name and the destination untouched; otherwise the name is `PackName` and the destination `<destination>/<pack name>`, a failed creation is `Other` and an unsafe entry `InvalidInput`; a failure unpacks nothing, a success unpacks `Targets`, all inside the destination |
| Completion.ShellPath | src/cli/commands/completion.rs:110-113 | `SHELL`, else `COMSPEC`, else `PSModulePath`, else empty |
| Completion.Classify | src/cli/commands/completion.rs:121-132 | bash, zsh, fish, powershell/pwsh are tested in that order; bash is the default; never Elvish |
| Completion.DetectShell | src/cli/commands/completion.rs:109-133 | shell detection never fails and never yields Elvish |
| Completion.EmptyEnvironmentIsBash | src/cli/commands/completion.rs:109-133 | with none of the variables set, the shell is bash |
| Completion.LastComponentDecides | src/cli/commands/completion.rs:115-119 | only the shell path's last component decides the shell; the directories never do |
| Completion.ShellVariableFirst | src/cli/commands/completion.rs:110-113 | `SHELL` wins over `COMSPEC` |
| Completion.FilenameInjective | src/cli/commands/completion.rs:176-184 | no two shells share a completion file name |
| Completion.CompletionDir | src/cli/commands/completion.rs:136-173 | bash uses `~/.local/share/bash-completion/completions` and zsh `~/.zsh/completions` only when that directory exists, else `/etc/bash_completion.d` and `/usr/local/share/zsh/site-functions`; fish, PowerShell and elvish use their fixed directory under the home directory (the empty path without one) |
| Completion.InstallCompletion | src/cli/commands/completion.rs:51-90 | a failed directory creation is reported exactly when creation fails; otherwise an existing file is kept exactly when not forced, and a written file is the shell's completion file |
| Completion.FileKeepsDir | src/cli/commands/completion.rs:51-67 | once the completion file exists, the completion directory and so the file chosen stay the same |
| Completion.InstallTwiceKeeps | src/cli/commands/completion.rs:60-67 | when an installation without `--force` wrote the file, installing again without `--force` keeps it |
| Completion.UninstallCompletion | src/cli/commands/completion.rs:93-106 | the shell's completion file is removed exactly when it exists |

## Left out

- Install.SanitizeName: `is_alphanumeric` and `to_lowercase` are modelled on ASCII only. Other Unicode letters and digits count as removable, and only `A`-`Z` are lower-cased. `Text.Lower` and `Completion.ShellName` share this limit.
- Text.Trim, Daemon.ReadPid, Daemon.StatusOf: only ASCII whitespace is trimmed (space, tab, line feed, vertical tab, form feed, carriage return). Other Unicode `White_Space` characters such as U+0085 and U+00A0 are not stripped, so a PID file padded with them reads as an error where the source reads the PID.
- Floating point: weather coordinates and the request URL are not modelled. The HTTP request becomes the `ApiOutcome` parameter (an error, or a weather code).
- Which weather entry gives the coordinates (`get("*")`, else the first in hash order) is not modelled, because coordinates are not modelled.
- I/O: file reads and writes, `create_dir_all`, `read_to_string` errors and the second archive open are parameters or left out. Unpacking is recorded as the target paths: the destination joined with the entry path's normal components (`tar` drops a leading `/` and `.` components). File contents, directory entries, links and permissions are not modelled.
- Manifest and configuration decoding (TOML and serde) is the `decode` parameter. JSON decoding of the output enumeration is an optional record list.
- Concurrency: the `APP_STATE` and `PROCESS_TRACKER` mutexes are not modelled; each operation is atomic. The exception is the weather lock, which is the finding below.
- Timing: the 500 ms sleeps of the run loop and of `restart` are not modelled.
- Daemon.DaemonManager.Start: it does not model the `PID_FILE_PATH` set-twice `expect`, the signal handler installation, or the trigger loop that `run_foreground` goes on to run (`Scheduler.TriggerManager.Run` models that loop).
- PID liveness: `is_process_running`, including its `pid as i32` cast, is the `live` set of `World`. `send_sigterm`'s success is `termOk`. The non-Unix fallback is not modelled.
- Spawning the detached daemon and killing, waiting on or spawning `swaybg` are recorded as events or actions. Failures of `kill` and `wait` are ignored, as in the source.
- Iteration order: `HashMap` order is unspecified in the source. Loops pick any unvisited key, and batches are specified up to order (`Enumerates`). `get_current_background` and `get_fill_mode` return the entry of some key.
- DayTime.DayTimeTrigger.Evaluate: a range that does not parse makes the source panic in `unwrap`. The model requires every resolved range to parse (`EvaluationDefined`) instead of modelling the panic.
- DayTime.DayTimeTrigger.Init: the same panic. When detection succeeds and a resolved day range does not parse (`8-x`, say), the call to `is_daytime_for` at src/triggers/daytime_trigger.rs:82 panics in the `parse::<u32>().unwrap()` at lines 39-45, so `Init` also requires `EvaluationDefined`. `Scheduler.TriggerManager.InitAll`, `Pass`, `Tick`, `Run`, `RunPasses` and `RunPass` carry that condition as `DayTimeReady` for each environment they are given, whenever a day/night trigger is registered.
- DayTime.DayTimeTrigger.Evaluate: the clock hour is read once per evaluation (`hour`). The source reads the clock for every output, and may see different hours across an hour boundary.
- Scheduler.TriggerManager.Pass: one environment (state snapshot, enumeration, clock, API answer) serves the whole pass. The source re-reads them in every evaluation.
- Scheduler.TriggerManager.Run: the infinite `loop` is a finite list of passes, and the instants are given rather than read from the clock.
- Static trigger init, and the output logging in the day/night init, have no effect beyond their result.
- `generate_completion` and the script contents are not modelled. `install_completion`'s final write is assumed to succeed.
- `save_config`, `get_instance`, `install_pack` and the CLI dispatch are outside the modelled core.
- `Config` holds only the fields the core reads (`background`, `time_config`, `weather`, `pool`, `name`). `src/config.rs` declares a different, older `Config` shape that these files do not use. `FillMode` names only `Fill`.
- The weather trigger's interval is 36000 seconds, as the code returns it. The comment beside it speaks of 15 minutes.

## Findings

| source | as written | input that shows it | evidently intended | confidence | as-written member | corrected member |
|---|---|---|---|---|---|---|
| src/triggers/weather_trigger.rs:152-164 | `evaluate` takes the `APP_STATE` lock (line 152) and, while holding it, calls `fetch_weather` (line 164). On a cache miss `fetch_weather` takes the same lock again (line 84), and a `std::sync::Mutex` re-lock never returns. | After a successful fetch at time t, the next evaluation comes at t + 36000, past the 600-second cache window. It misses and blocks (likewise the first evaluation after a failed initial fetch). | Fetch the weather with the lock free, as `init` does, so every evaluation returns | not executed | Weather.EvaluateFetchAsWritten | Weather.FetchUnlockedReturns |
