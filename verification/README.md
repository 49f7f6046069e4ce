# gwn: scheduler, fibers, log patterns, configuration and log reload

`gwn` is a C++ library: an N-M scheduler that runs stackful fibers on worker
threads, a logging system with a small pattern language, and a typed
configuration tree with change listeners, one of which reconfigures the loggers.
This project models these parts and proves what they keep.

**Scheduler and fibers, any number of workers** (`Scheduler*.dfy`).
`SchedulerModel` is a transition system. A label is one step of one worker in
`Scheduler::run` (scan under the lock, dispatch, decrement, post-processing, idle
check, ...), one step of the fiber code it has loaded (`MainFunc`, a yield, the
end, dropping its own reference, `swapOut`), or one act of tasks and outside code
(schedule, create, reset, keep or drop a fiber). A failed `gwn_ASSERT`, the use of
a destroyed fiber or a context saved into the wrong fiber sets `fault`. Outside
code obeys a *token discipline* (`Disciplined`): it schedules a fiber only when it
is INIT or fully parked, and resets one only when it is INIT or finished, in both
cases only when the fiber is neither queued nor in a worker's hands.
`SchedulerInvariant.Inv` is kept by every such step; the theorems hold for every
state of every run. `SchedulerEffects` says over runs what a slice comes to: how its
end reads until the loop looks at it, and what the loop then makes of it.

**One worker, as code** (`SchedulerThread.dfy`, `RoundRobin*.dfy`). `Fiber` and
`Scheduler` as mutable objects with the loops of `run` and `schedule`, proved equal
to a pure first-in first-out interpreter of task scripts, which in turn is proved
to run each task, spawned ones at any depth included, as if it were alone, and to
spawn exactly the tasks the scripts name.

**Log patterns** (`Pattern*.dfy`, `LogFormatter.dfy`). The index loops of
`LogFormatter::init`, proved to compute a grammar over the rest of the pattern;
then round trip, tiling, when two patterns compose, and what each directive, each
error and the default pattern render in the fields of the event.

**Configuration** (`Config*.dfy`). The recursive flattening of a tree, a variable
with listeners, the registry and the loading of a tree into it; names are related to
paths of keys through the tree.

**Log reload** (`LogRegistry.dfy`, `LogReload.dfy`). Loggers, appenders, their
registry and the listener of the `logs` setting as objects; then when the loggers
agree with the setting.

## Where the code differs from what one would expect

- The comment above `init` (gwn/log.cc:206) lists `%%` as a form of its own. The
  code turns only the first of the two characters into text and scans the second
  one again. `PatternPercent.PercentAsDocumented` says exactly which patterns, of
  all patterns, read as documented; `%%` alone is rejected and `%%m` read
  differently.
- `stopping()` can be true and false again (`SchedulerWitness.StoppingIsNotStable`);
  `SchedulerStopping.StoppingForGood` says exactly when it stays true. The shutdown
  theorem goes through the last worker to leave.
- A task pinned to a thread that has made its last scan is abandoned
  (`SchedulerWitness.PinnedTaskIsAbandoned`), and its entry keeps every worker
  looping whose idle fiber has not returned yet; `ShutdownIsComplete` and
  `SchedulerCompletion.ShutdownCanComplete` are the exact conditions.
- A pin holds for the next slice only (`SchedulerPlacement.FirstSliceWhereScheduled`);
  a READY yield queues the fiber for any thread (`SchedulerPlacement.ReadyYieldMoves`,
  `SchedulerWitness.PinnedTaskMoves`).
- Waking a fiber as soon as its state reads HOLD can load it on two workers at once
  (`SchedulerPlacement.EarlyWakeShares`, `SchedulerWitness.EarlyWakeSharesFiber`): the
  state is written before the context is saved.
- `stop` called by a task on the caller's own thread, or again after the root fiber
  has ended with work left, fails an assertion (`SchedulerThread.Scheduler.Stop`).
- `LogDefine::operator==` compares `appenders` with itself (gwn/log.cc:583), so a
  change of appenders alone is dropped; `LogReload.ReloadAgrees` and
  `LogReload.LoggersFollowSetting` are the exact conditions.
- A logger's formatter stays when its definition stops setting one
  (`LogReload.FormatterSticks`); `LogReload.LastSetAlone` is the exact condition for a
  chain of reloads to end as its last set alone.
- A logger whose definition is gone is not silent: at level 0 it passes every event,
  and without appenders it hands it to the root logger (gwn/log.cc:418-430).
- Two patterns in a row need not render one after the other; the exact condition is
  `PatternComposition.ComposesExactly`.
- The alphabet of configuration names stops at `8` and has no upper case, although
  the loader lower-cases names afterwards (`ConfigTree.NineIsIllegal`).

## Model

| member | source | states |
|---|---|---|
| `SchedulerModel.FirstEligible` | gwn/scheduler.cc:187-206 | the scan takes the leftmost entry for this thread whose fiber is not EXEC, and skips none before it |
| `SchedulerSteps.StepInv` | gwn/scheduler.cc:180-269 | every enabled step of any worker, and every disciplined act around the scheduler, keeps the whole invariant |
| `SchedulerMoves.PickInv` | gwn/scheduler.cc:201-205 | moving an entry from the queue to a worker keeps ownership, counters and task accounting |
| `SchedulerMoves.StartInv` | gwn/scheduler.cc:231-237 | starting a callback on the spare or a new fiber keeps the invariant: no other task uses that fiber |
| `SchedulerMoves.LetGoInv` | gwn/scheduler.cc:219-226 | requeueing a READY fiber or parking it keeps the invariant |
| `SchedulerMoves.RecycleInv` | gwn/scheduler.cc:242-244 | resetting a finished callback fiber keeps the invariant |
| `SchedulerOutside.PushInv` | gwn/scheduler.h:100-107 | a disciplined push of a fiber or a callback keeps the invariant |
| `SchedulerOutside.TouchInv` | gwn/fiber.cc:96-133 | creating, resetting or destroying a fiber nobody holds keeps the invariant |
| `SchedulerFrames.SliceInv` | gwn/fiber.cc:136-231 | a step of the loaded fiber's own code keeps the invariant for all other workers and tasks |
| `SchedulerTheorems.RunInv` | gwn/scheduler.cc:164-270 | the invariant holds in every state of every disciplined run |
| `SchedulerTheorems.NoFault` | gwn/fiber.cc:99-101 | no assertion fails, no destroyed fiber is used, no context is saved into a wrong fiber, in any run of any number of workers |
| `SchedulerTheorems.SingleOwner` | gwn/scheduler.cc:186-254 | each fiber or callback is in one place at most: one queue entry or the hands of one worker |
| `SchedulerTheorems.NoSharedExecution` | gwn/fiber.cc:136-152 | a fiber's code is loaded on one worker at most, `t_fiber` of exactly that worker names it, and it is EXEC while task code runs |
| `SchedulerTheorems.ReferencesKeepFibersAlive` | gwn/fiber.cc:96-103 | a fiber that is EXEC, HOLD, READY, queued or held is referenced, so the destructor meets INIT, TERM and EXCEPT only |
| `SchedulerTheorems.QueuedCanRun` | gwn/scheduler.cc:203-216 | no finished or loaded fiber is ever queued, so the pick's increment is always undone |
| `SchedulerTheorems.SpareAtHead` | gwn/scheduler.cc:227-253 | at every loop head `cb_fiber` is null or an INIT fiber without task, not queued and held by nobody else |
| `SchedulerTheorems.StepLawful` | gwn/fiber.cc:117-231 | one step changes a fiber's state only along the life cycle |
| `SchedulerTheorems.LifeCycle` | gwn/fiber.cc:117-231 | over all runs: only INIT/HOLD/READY to EXEC, EXEC to a yield or an end, and finished to INIT by reset; a finished fiber is never resumed |
| `SchedulerEffects.HeldStays` | gwn/scheduler.cc:186-254 | a fiber in a worker's hands, and that worker, are not touched by any other worker or by outside code |
| `SchedulerEffects.EndOfTask` | gwn/fiber.cc:202-227 | over runs: a task that returned leaves its fiber in TERM with no function, one that threw in EXCEPT with its function still there, at every moment until its worker's post-processing; from then on it counts as finished |
| `SchedulerEffects.AfterYield` | gwn/fiber.cc:175-195 | over runs: a yield leaves its fiber in READY or HOLD, with its function, until the post-processing |
| `SchedulerEffects.AfterSlice` | gwn/scheduler.cc:217-254 | after a slice the post-processing queues the fiber last and for any thread exactly after a READY yield, parks it in HOLD with its function after a HOLD yield, leaves a finished fiber in TERM or EXCEPT, and turns a finished callback's fiber into an INIT spare |
| `SchedulerEffects.CallbackRuns` | gwn/scheduler.cc:227-237 | while a worker is in the slice of a picked callback, the loaded fiber carries that callback |
| `SchedulerShutdown.CountersAgree` | gwn/scheduler.cc:203-263 | `m_activeThreadCount` is the number of workers between pick and decrement, `m_idleThreadCount` the number in their idle fiber |
| `SchedulerShutdown.WhereIsTask` | gwn/scheduler.cc:180-269 | with nobody counted active, an unfinished task is parked, queued, or in a worker between decrement and post-processing |
| `SchedulerShutdown.StoppingMeans` | gwn/scheduler.cc:99-103 | while `stopping()` is true every unfinished task is parked or between its worker's decrement and its requeue or HOLD |
| `SchedulerStopping.StoppingForGood` | gwn/scheduler.cc:99-103 | in a reachable state in which `stopping()` is true, it stays true in every continuation exactly when no worker is about to queue a READY fiber again |
| `SchedulerShutdown.LastScan` | gwn/scheduler.cc:185-208 | a scan that finds nothing leaves no entry for any thread |
| `SchedulerShutdown.RetiredRun` | gwn/scheduler.cc:255-259 | whenever every worker has made its last scan, only entries pinned to a thread are left |
| `SchedulerShutdown.NothingAbandoned` | gwn/scheduler.cc:109-162 | when all workers have left `run`, the counters are zero and every accepted task finished, is parked, or waits in a pinned entry |
| `SchedulerShutdown.ServedRun` | gwn/scheduler.cc:189-193 | if nothing is scheduled for a thread that has made its last scan, no entry ever waits for such a thread |
| `SchedulerShutdown.StuckRun` | gwn/scheduler.cc:189-193 | an entry scheduled for a thread that will not scan again stays queued for ever |
| `SchedulerShutdown.ShutdownIsComplete` | gwn/scheduler.cc:109-162 | all workers gone: the queue is empty exactly when nothing was scheduled for a thread past its last scan, and then every accepted task finished or is parked in HOLD; scheduling for any thread always meets that condition |
| `SchedulerCompletion.NeverFinishes` | gwn/scheduler.cc:92-103 | while an entry waits for a thread that will not scan again, an idle fiber that has not returned never returns, whatever happens |
| `SchedulerCompletion.FinishFrom` | gwn/scheduler.cc:164-270 | otherwise steps of the workers alone, with running tasks returning, bring every worker out of `run` |
| `SchedulerCompletion.ShutdownCanComplete` | gwn/scheduler.cc:109-162 | after `stop`, in any reachable state, all workers can leave `run` exactly when each queued entry has a worker that will still scan for it or every idle fiber has returned already |
| `SchedulerOrder.ScanOvertakesNobody` | gwn/scheduler.cc:186-207 | a scan takes an unpinned entry or one before it, and keeps the order of the rest |
| `SchedulerOrder.BoundedWaiting` | gwn/scheduler.cc:186-207 | an unpinned entry at index k is taken within k+1 successful picks by any mix of workers, whatever is pushed meanwhile |
| `SchedulerOrder.EnterStarts` | gwn/fiber.cc:202-206 | `MainFunc` starts an accepted task that was not started before |
| `SchedulerOrder.StartedOnce` | gwn/scheduler.cc:227-253 | two starts in a run are starts of different tasks |
| `SchedulerOrder.LoadedBySwapIn` | gwn/fiber.cc:136-152 | a worker inside a fiber got there by its own `swapIn` of that fiber, which saved the scheduling fiber's context that is saved there still; `swapOut` goes on behind that `swapIn` |
| `SchedulerPlacement.FirstSliceWhereScheduled` | gwn/scheduler.cc:189-193 | work queued for a thread is first loaded after that by that thread |
| `SchedulerPlacement.FirstSliceOfPush` | gwn/scheduler.h:63-74 | a fiber or function scheduled for a thread is queued last and first loaded by that thread |
| `SchedulerPlacement.ReadyYieldMoves` | gwn/scheduler.cc:219-220 | after a READY yield the fiber can go on on any other worker that is at its loop head with nothing to take, whatever thread it was scheduled for |
| `SchedulerPlacement.EarlyWakeShares` | gwn/fiber.cc:186-195 | scheduling a fiber between its HOLD write and its context save lets any other worker with nothing to take load it too |
| `SchedulerWitness.StoppingIsNotStable` | gwn/scheduler.cc:99-103 | a run in which `stopping()` is true and false one step later |
| `SchedulerWitness.EarlyWakeSharesFiber` | gwn/fiber.cc:186-195 | one undisciplined schedule between the HOLD write and the context save loads a fiber on two workers |
| `SchedulerWitness.PinnedTaskIsAbandoned` | gwn/scheduler.cc:189-193 | a disciplined run, quiet after `stop`, that leaves a pinned task never started |
| `SchedulerWitness.PinnedTaskMoves` | gwn/scheduler.cc:219-220 | a run in which a task scheduled for one worker is loaded on another after its first yield |
| `SchedulerThread.Fiber.constructor` | gwn/fiber.cc:71-94 | a new fiber is INIT with its function |
| `SchedulerThread.Fiber.Reset` | gwn/fiber.cc:117-133 | from INIT, TERM or EXCEPT back to INIT with a new function |
| `SchedulerThread.Scheduler.ScheduleNoLock` | gwn/scheduler.h:100-107 | appends an entry that carries work, drops an empty one, and reports whether the queue was empty |
| `SchedulerThread.Scheduler.ScheduleRange` | gwn/scheduler.h:82-94 | appends the fibers and functions of the caller's range in order, skips empty elements, and leaves every element of the range empty; a range without empty elements is appended element by element |
| `SchedulerThread.Scheduler.SwapIn` | gwn/fiber.cc:136-231 | a slice has the effect and the outcome that the round-robin interpreter gives its script, and the fiber is left as the action that ends the slice says: READY or HOLD with the rest of the script, TERM without function, EXCEPT with its function |
| `SchedulerThread.Scheduler.Pick` | gwn/scheduler.cc:185-208 | takes the leftmost entry this thread may run and keeps the others in order |
| `SchedulerThread.Scheduler.RunFiber` | gwn/scheduler.cc:214-226 | a picked fiber's slice, with its requeue or HOLD, is one turn; the count goes back down |
| `SchedulerThread.Scheduler.RunCallback` | gwn/scheduler.cc:227-254 | a picked callback's slice is one turn, on the spare fiber or a new one, and the spare stays reusable |
| `SchedulerThread.Scheduler.RunIdle` | gwn/scheduler.cc:261-267 | the idle fiber ends exactly when the scheduler may stop |
| `SchedulerThread.Scheduler.Run` | gwn/scheduler.cc:164-270 | after `stop` the loop ends, with an empty queue, zero counters and the trace of the round-robin interpreter |
| `SchedulerThread.Scheduler.Stop` | gwn/scheduler.cc:109-151 | whatever was scheduled before and during the drain is drained in round-robin order and `stopping()` holds afterwards; with work left and a root fiber that runs or has ended it fails an assertion instead |
| `SchedulerThread.Session` | gwn/scheduler.cc:109-270 | each scheduled callback does exactly what its script does alone; every other id belongs to a task that an earlier one spawned, each task has exactly the children its script spawns, in order and at any depth, and does exactly what its own script does alone; every task ends exactly once |
| `RoundRobin.TurnWeight` | gwn/scheduler.cc:180-269 | every turn uses up script, so draining finite tasks that spawn, yield and throw terminates |
| `RoundRobin.SliceSays` | gwn/fiber.cc:202-231 | a slice performs the next part of its own script and nothing for another task |
| `RoundRobin.DrainSaysAlone` | gwn/scheduler.cc:180-269 | whatever else is queued or spawned, a task's events are those of its script run alone |
| `RoundRobin.DrainEndsEveryTask` | gwn/scheduler.cc:180-269 | every task queued at the start or spawned later finishes, fails or parks, exactly once |
| `RoundRobinFamily.SliceTells` | gwn/fiber.cc:202-231 | a slice queues the scripts it spawns up to its end, under the next ids and in order, and its outcome is that of the action that stops it |
| `RoundRobinFamily.TurnOrder` | gwn/scheduler.cc:201-226 | after a turn come the others in order, then the new children, then the task itself with the rest of its script if it yielded READY |
| `RoundRobinFamily.QueuedSpawn` | gwn/scheduler.h:100-107 | a queued task gets exactly the children its script spawns up to its end or hold, in order |
| `RoundRobinFamily.SpawnedRuns` | gwn/scheduler.cc:227-254 | a spawned task does what its own script does alone, whoever else runs |
| `RoundRobinFamily.DrainFamily` | gwn/scheduler.cc:180-269 | the ids handed out during a drain form a family: parents first, children as the parents' scripts spawn them, and each runs its own script |
| `LogFormatter.Formatter.ScanAt` | gwn/log.cc:223-259 | the two-state inner loop finds the longest name and its argument, or an unclosed brace |
| `LogFormatter.Formatter.Scan` | gwn/log.cc:208-277 | the outer loop produces the tuples of the grammar's tokens and sets `m_error` exactly for an unclosed brace |
| `LogFormatter.Formatter.Build` | gwn/log.cc:278-312 | the second loop makes one item a tuple and sets `m_error` for unknown names |
| `LogFormatter.Formatter.constructor` | gwn/log.cc:186-189 | a formatter holds the items of the grammar's tokens, and `m_error` is set exactly when the pattern is not accepted |
| `LogFormatter.Formatter.Format` | gwn/log.cc:191-204 | writes every item's part in order |
| `PatternFields.FirstFields` | gwn/log.cc:282-285 | `%m`, `%p`, `%r`, `%c`, with any braces or none, render the event's message, level, elapsed time and logger name |
| `PatternFields.NextFields` | gwn/log.cc:286-289 | `%t`, `%n`, `%d`, `%f` render thread id, a new line, the time stamp in the format of the braces or the default one, and the file |
| `PatternFields.LastFields` | gwn/log.cc:290-293 | `%l`, `%T`, `%F`, `%N` render line, a tab, fiber id and thread name |
| `PatternFields.AcceptedNames` | gwn/log.cc:278-303 | of all names of letters, exactly these twelve are accepted |
| `PatternFields.BracedInFront` | gwn/log.cc:235-267 | a directive with braces in front of any pattern renders its part and then the rest, and is accepted exactly when its name is known and the rest is accepted |
| `PatternFields.TextInFront` | gwn/log.cc:210-214 | a character other than a percent sign in front of an accepted pattern renders as itself |
| `PatternFields.UnknownName` | gwn/log.cc:301-304 | any other name is an error and renders the message that names it |
| `PatternFields.LongNameRejected` | gwn/log.cc:229-233 | a letter followed by a letter or a closing brace is never a known directive, whatever follows |
| `PatternFields.Unclosed` | gwn/log.cc:261-272 | an unclosed brace is an error; the error text is followed by what stood behind the percent sign |
| `PatternFields.DefaultLine` | gwn/log.cc:358-362 | the default pattern is accepted and renders, for every event, time, thread, thread name, fiber, level, logger, file, line and message in this order with their separators |
| `PatternLaws.AcceptedWellFormed` | gwn/log.cc:207-277 | tokens of an accepted pattern: no adjoining texts, percent signs only in a run right before a directive, known names, no brace in arguments |
| `PatternLaws.PrintParses` | gwn/log.cc:207-277 | every such token list is what its printed form parses to |
| `PatternLaws.RoundTrip` | gwn/log.cc:207-313 | printing an accepted pattern's tokens and parsing again gives the same tokens and no error |
| `PatternLaws.LanguageOfPatterns` | gwn/log.cc:207-313 | the accepted patterns parse to exactly the well-formed token lists |
| `PatternComposition.SpansRead` | gwn/log.cc:207-277 | for any pattern each token is what its own stretch of the pattern says |
| `PatternComposition.SpansCover` | gwn/log.cc:261-272 | for any pattern the stretches lose exactly one character per unclosed directive, and nothing otherwise |
| `PatternComposition.TokensTile` | gwn/log.cc:207-277 | the stretches of an accepted pattern's tokens concatenate to the pattern |
| `PatternComposition.TokensCompose` | gwn/log.cc:207-277 | two accepted patterns in a row have the tokens of one after the other exactly when no bare directive runs on across the seam |
| `PatternComposition.FormattingComposes` | gwn/log.cc:191-204 | without such a clash the concatenation is accepted and renders every event as one after the other |
| `PatternComposition.ClashRendersLess` | gwn/log.cc:191-204 | with a clash, if the whole is accepted, it renders shorter than the two parts for events whose time stamp does not depend on the format |
| `PatternComposition.ComposesExactly` | gwn/log.cc:191-204 | two accepted patterns in a row are accepted and render every event as one after the other exactly when there is no clash |
| `PatternPercent.RunInCode` | gwn/log.cc:216-221 | for any pattern: of a run of percent signs all but the last are text and the last starts a directive |
| `PatternPercent.PercentAsDocumented` | gwn/log.cc:206-221 | any pattern, accepted or not, reads as the comment documents `%%` exactly when the scan meets no doubled percent sign; so one that is free of errors as documented is accepted with that reading exactly then |
| `PatternPercent.PercentAloneRejected` | gwn/log.cc:206-221 | `%%` alone is a percent sign as documented and rejected by the code |
| `PatternPercent.PercentMessageDiffers` | gwn/log.cc:206-221 | `%%m` is accepted, as a percent sign and the message instead of the documented text |
| `ConfigTree.MemberList.ListAllMember` | gwn/config.cc:19-35 | the pruned recursion appends exactly the legal part of the full preorder listing |
| `ConfigTree.NothingLegalBelow` | gwn/config.cc:22-26 | below an illegal name there is no legal one |
| `ConfigTree.ListedIsLegal` | gwn/config.cc:42-49 | every listed name is legal and unchanged by lower-casing |
| `ConfigTree.NineIsIllegal` | gwn/config.cc:22-48 | no name with a 9 is ever listed, from any tree, lower-cased or not |
| `ConfigTree.LowerSays` | gwn/config.cc:48 | lower-casing turns each capital into its small letter and leaves everything else |
| `ConfigPath.AlphabetIs` | gwn/config.cc:22-23 | a name is legal exactly when its characters are those of the string in the source |
| `ConfigPath.PathIsListed` | gwn/config.cc:19-35 | in any tree a path of non-empty legal keys through maps is listed, with its node, under its keys joined by dots |
| `ConfigPath.ListingIsPaths` | gwn/config.cc:19-35 | without empty keys, the listing holds a name and a node exactly when such a path leads to the node and the name is its keys joined by dots |
| `ConfigPath.PathIsGiven` | gwn/config.cc:38-62 | the variable named by such a path is given the text of the node at its end: a scalar's own, another node's emission |
| `ConfigPath.NestedSetting` | gwn/config.cc:38-62 | without empty keys and when no other node has the dotted name, a load leaves the variable of that name at the conversion of the node's text up to its `==`, or untouched if the text does not convert |
| `ConfigPath.LaterEntriesLater` | gwn/config.cc:28-34 | what later entries of a map give a variable comes after what earlier ones give it |
| `ConfigVariable.ConfigVar.SetValue` | gwn/config.h:318-330 | an equal value is dropped; otherwise every listener is told old and new in id order, then the value is stored |
| `ConfigVariable.ConfigVar.FromString` | gwn/config.h:295-307 | a failed conversion changes nothing and reports false; a successful one is a set |
| `ConfigVariable.ConfigVar.AddListener` | gwn/config.h:332-338 | a new listener gets the next id of its type's counter |
| `ConfigVariable.ConfigVar.DelListener` | gwn/config.h:340-343 | exactly this id is gone, the others stay in order, and an id that is not registered changes nothing |
| `ConfigVariable.ConfigVar.ClearListener` | gwn/config.h:351-354 | takes off all listeners |
| `ConfigVariable.NotifyReaches` | gwn/config.h:324-326 | one change is told once to each registered listener, in the order of their ids, and to nobody else |
| `ConfigVariable.HearsEverything` | gwn/config.h:318-354 | while registered, a listener receives every change of the value, once and in order |
| `ConfigVariable.ChangesChain` | gwn/config.h:318-330 | the changes of a run lead from the first value to the last, none to an equal value |
| `ConfigVariable.SilentForEver` | gwn/config.h:332-354 | a removed listener hears nothing more and its id is never used again |
| `ConfigVariable.ListenerHistory` | gwn/config.h:318-354 | from registration to removal a listener receives a chain from the value then to the value at removal, one pair per change, and nothing afterwards |
| `ConfigRegistry.Config.LookUp` | gwn/config.h:371-398 | returns the existing variable, refuses another type or an illegal new name, or registers a new variable with its default |
| `ConfigRegistry.Config.LoadFromYaml` | gwn/config.cc:38-62 | every registered variable goes through the conversions of the tree's nodes with its name, in preorder, and no other variable changes |
| `ConfigRegistry.LoadedValue` | gwn/config.cc:38-62 | after a load a variable holds, up to its `==`, the last node of its name that converts; just that value if `==` is equality; and keeps its state if no node names it |
| `ConfigRegistry.LastGoodIsLast` | gwn/config.cc:42-60 | that value is the conversion of a text after which none converts, or the value from before |
| `LogRegistry.Logger.SetFormatter` | gwn/log.cc:364-374 | sets the formatter and passes it to the appenders that have none of their own; the others keep theirs, and afterwards every appender without its own has the logger's |
| `LogRegistry.Logger.SetPattern` | gwn/log.cc:376-386 | an erroneous pattern changes nothing |
| `LogRegistry.Logger.AddAppender` | gwn/log.cc:393-400 | appends; an appender without formatter takes the logger's |
| `LogRegistry.Logger.Configure` | gwn/log.cc:714-746 | level, formatter if usable, and all appenders anew from the definition, in order |
| `LogRegistry.LoggerManager.constructor` | gwn/log.cc:537-544 | the root logger alone, writing to the console |
| `LogRegistry.LoggerManager.GetLogger` | gwn/log.cc:546-557 | finds the logger or creates one at DEBUG with the default pattern and no appender, and leaves every other logger as it was |
| `LogRegistry.LoggerManager.OnChange` | gwn/log.cc:697-758 | the listener's two loops, in any order of the names, configure new and differing definitions and set dropped ones to level 0 without appenders; appenders without a formatter of their own go on having their logger's |
| `LogRegistry.ReloadInherits` | gwn/log.cc:393-400 | every reload keeps it that each appender without a formatter of its own has its logger's |
| `LogReload.ReloadedLogger` | gwn/log.cc:700-747 | a new definition, or one with another level or formatter, gives its logger that level, its usable formatter or the one from before, and its appenders in order: sink and level as defined, their own usable pattern or else the logger's |
| `LogReload.ReloadedKept` | gwn/log.cc:707-712 | a definition kept with its level and formatter leaves its logger alone |
| `LogReload.ReloadAgrees` | gwn/log.cc:697-758 | from agreement with the old set a reload agrees with the new one exactly when no definition kept its level and formatter but shows other appenders |
| `LogReload.ReloadElsewhere` | gwn/log.cc:749-757 | dropped loggers have level 0 and no appenders; loggers in neither set stay; none is lost |
| `LogReload.ChainEffective` | gwn/log.cc:697-758 | over any chain of reloads the loggers agree with the definitions last acted on |
| `LogReload.LoggersFollowSetting` | gwn/log.cc:697-758 | over any operations on the `logs` variable the loggers agree with its current value exactly when the definitions last acted on show the same appenders |
| `LogReload.LastSetAlone` | gwn/log.cc:697-758 | a chain of reloads leaves a logger of the last set as loading that set alone does exactly when the definition last acted on shows its appenders, and its formatter is set by the last set or is the one that stuck anyway |
| `LogReload.EqualSetIsDropped` | gwn/log.cc:579-584 | any set equal to the value under `==` is dropped, the listener would do nothing with it, and the loggers agree with it exactly when it shows the same appenders |
| `LogReload.AppendersOnlyIsDropped` | gwn/log.cc:579-584 | one such set: taking away the console appender is dropped and the loggers disagree |
| `LogReload.FormatterSticks` | gwn/log.cc:717-719 | after any reloads a logger's formatter is that of the last definition acted on that sets a usable one, or the one it had before |
| `LogReload.ClearedFormatterStays` | gwn/log.cc:717-719 | two sets after which a formatter is kept that the last set alone would not give |
| `LogReload.SettingAfterLoad` | gwn/log.cc:692-693 | after a load the setting equals the last good definitions up to its own `==` |

## Left out

- Contexts, stacks, locks, atomics and threads: a context is an abstract suspended point, a locked region or an atomic operation is one step, and steps of different workers interleave in any order.
- The step granularity: code between two labels that touches only the worker's own variables is part of the step before it; `SetThis` and the context switch are one step.
- `start`, the thread pool, `join`, restarting a stopped scheduler, `tickle` and logging inside the scheduler: a run begins where `start` leaves the workers.
- `t_fiber` and `Fiber::call`/`back` on the caller's own thread: `swapOut` there names the thread's main fiber; bracketing is stated for workers whose scheduling fiber is their main fiber.
- Reading thread-local variables from a fiber that moved between threads, and compiler caching of their addresses.
- Widths of counters and ids: they are unbounded; the two thread counters are proved equal to numbers of workers, so they neither wrap nor go negative.
- Task functions: in the transition system a task does any allowed acts in any order for any time; in the single-worker code it is a finite script, and a task parked in HOLD stays parked.
- SchedulerThread.Scheduler.Run: asks that `stop` was called and that queued entries are for any thread or this one; otherwise the loop does not end (`SchedulerCompletion.NeverFinishes`, and an idle fiber returns only after `stop`).
- SchedulerThread.Scheduler.Stop: asks the same of the queue when it enters the loop, and that the root fiber is not in HOLD or READY, because nothing ever yields it.
- In the single-worker code tasks and queue entries are values, and no task keeps a pointer to a fiber; shared fiber pointers are in the transition system only.
- Outside code that breaks the token discipline: nothing beyond `SchedulerPlacement.EarlyWakeShares` and its witness.
- `isalpha` for characters beyond ASCII, and `strftime`: the time stamp's rendering is a parameter.
- ConfigRegistry.Config.LoadFromYaml: YAML parsing, its emission of non-scalar nodes and `lexical_cast` are parameters; a tree is finite, without aliases; variables of different types share one value type and differ in their type name, `==` and conversion.
- Listeners that throw or re-enter, and concurrent `setValue`: notification and write are under separate locks, so calls are taken one after the other.
- `toString`, `getListener`, `LookUp` without default, and the container conversions.
- LogRegistry.LoggerManager.OnChange: no appender object is shared between two loggers of the registry; the listener itself never shares one.
- `Logger::log`, level names, file reopening, console output and `delAppender`.
- `LogDefine` to YAML and back: the reader never reads an appender's level, so it is no round trip.
- `Singleton`, `Noncopyable`, `Thread`, `util`, macros and backtraces.
