# A verified model of the job queue, its scheduler and its dependency graphs

The repository runs background jobs. Jobs are stored in a table; a runner reads the table, lets the jobs flow through a
tree of channels with capacities, throttles and priorities, and asks a web server to perform those that come out at the
root. Jobs can be chained and grouped; a job that depends on others waits until they are done. Beside the queue, the
repository computes the depreciation boards of assets and prints trial balances. This project models those parts in
Dafny and proves what they are relied on for.

## How the model is laid out

| file | what it models |
|---|---|
| `Channels.dfy` | jobs, heaps with deferred removal, channel queues, channels: the classes, changed in place, against values of type `World` |
| `Dispatching.dfy` | what one dispatch yields and leaves, and why no wakeup is missed |
| `Yielding.dfy` | when a channel yields, in which order, when it stops, and for whom the runner wakes up, in terms of settings, etas, priorities, dates and numbers |
| `Location.dfy` | where a job is among the channels, and how every operation moves it |
| `Runners.dfy` | the loop of the runner between two notifications, and the calls of the channel manager as steps of a run |
| `Scheduling.dfy`, `Runs.dfy` | notifications and dispatches as steps, and what holds over whole runs: location, capacity, throttle |
| `Notifying.dfy` | where a notification leaves its job, channel by channel |
| `ChannelNames.dfy`, `Lookups.dfy`, `ChannelManagers.dfy` | dotted names, what a name stands for, and the manager that finds and creates channels and handles notifications |
| `JobProtocol.dfy`, `Releases.dfy`, `Executors.dfy` | the stored jobs, runner, requests and workers as a transition system; dependency safety, the release of waiting jobs, and the number of executors of a job |
| `Workers.dfy` | what a worker's attempt makes of its job, and when the job is performed again |
| `RunnerView.dfy`, `JointRuns.dfy` | what the channels show of a job; channel manager, store, requests and workers together, step by step |
| `Jobs.dfy` | the in-memory job, one attempt and any number of them |
| `Graphs.dfy` | graphs, Kahn's sort, the search for maximal cycle-free paths |
| `Delayables.dfy`, `Flattening.dfy`, `Nesting.dfy`, `Delaying.dfy` | chains and groups, their compilation to one graph, what that preserves, an example of what it loses, and the jobs made of it |
| `JobStates.dfy`, `Sequences.dfy` | the states of a job, and what all parts need of sequences |
| `AssetBoards.dfy`, `BoardLines.dfy` | the depreciation board, and how much each of its lines is and when it is due |
| `TrialBalances.dfy` | the three-way merge of the trial balance |

A class method is proved against a function or relation on values (`ensures Snapshot(cs) == RemoveUp(old(...), ...)`,
`Dispatched`, `Compiled`, `Recomputed`); what the program promises is then proved of that function or relation. A set
`cs` or `all` passed to the methods of a channel is the whole tree that the channel belongs to.

Numbers stand for times: an eta, a throttle or a wakeup time of 0 stands for none, as in the code, which asks only
whether they are set. Channel names are modelled as strings and, by a proved bijection, as sequences of components.

## Where the code decides what is true

- `set_running` does nothing for a job that already runs in its own channel, so a job that is queued in a parent stays
  queued there. `SetRunningLocates` says exactly where it ends up.
- Only dispatching looks at capacities. `RunWithinCapacity` says over whole runs exactly which notifications keep them:
  those for which there is room, a replaced job leaving its own room first. `ExpectedWithinCapacity` is the case that the
  runner relies on, jobs notified as enqueued or started while they run already; `ExceedCapacity` is a new channel manager
  that exceeds the capacity of its root when it is told of two jobs that were started before.
- A name that falls back on a registered channel is repeated below it, and a second lookup can then find another
  channel. `FallbackIsStable` says exactly when it does not; `UnstableName` is a name for which it does; `LookupsSettle`
  says that looking the same name up again and again settles on one channel all the same, and `ChangesAreFew` that,
  whatever else is looked up and registered in between, a name changes its channel less often than it has components.
- `_head` of a chain is the `_tail` of its first element. `CoherentIsAttached` says exactly when the links are
  attached to the first and last jobs all the same, and `AskedIsKept` that nothing asked for is lost then.
  `WaitsForNothing` says exactly which jobs are left waiting for nothing; `CompileNestedChain` builds a chain, with the
  constructors and `on_done`, whose first job is one of them although it was asked to wait.
- A worker that dies between committing DONE and releasing its children loses a release exactly when no other releasing
  worker serves the same child (`CrashForgetsNone`, `RunForgetsNone`). What is lost then is lost for ever, unless the
  operator sees to the waiting job or to what it waits for: `StuckForEver` says that nothing else helps, `LostForEver`
  from which states the death of a worker leads there, and `CrashLosesRelease` that such states are reached.
- No two workers perform the same job, and nothing can start a job that is being performed, exactly as long as no job is
  requeued while it is performed. `Executors.RunSingle` says so of the store and the workers, `JointRuns.RunSingle` of
  any joint run with the channel manager. Requeuing such a job makes it startable at once, which need not lead to a second
  executor, but can from any state (`RequeueCanDuplicate`). Jobs are requeued by operators, and by the scheduled
  `requeue_stuck_jobs` (queue_job/models/queue_job.py:419), which takes jobs that are started too when its
  `started_delta` is set. Setting such a job to done or cancelling it makes no second executor; it only makes the row say
  something else than STARTED (`RunExclusive`).
- Taking the throttle from a channel while it is paused would leave it a pause that never ends, and a wakeup time that
  stays in the past (`StalePauseNeverEnds`). The repository configures channels when the runner starts only
  (queue_job/jobrunner/runner.py:363), when none is paused; `Configure` of the manager says exactly when what the
  scheduler relies on is kept.
- With an ending date, recomputing a depreciation board once half of its lines are posted drops the others:
  `EndDateDropsLines`, and a run in which it happens: `EndDateLosesHalf`. `RecomputeBalances` says exactly when a board
  accounts for the whole value.
- A linear board with prorata that is recomputed after lines were posted divides what is left by the whole number of
  lines again, and the last line makes up for it: `ProrataLines`. With nothing posted, the first and the last line share
  one regular amount: `ProrataSplitsOneLine`.
- Nothing but requeuing brings back a job whose worker failed: `FailedStaysFailed`. One that was postponed, or whose
  request got lost, needs no operator: `PostponedCanBePerformed`, `TimedOutCanBePerformed`.
- One row of a trial balance that is not of an active account holds up all the rows after it: `CursorStops`. The queries
  of the report yield no such row, because a row of the first two comes from entries of its account, whose totals are
  then not null.
- The documentation of a group says that its jobs are executed sequentially (queue_job/delay.py:362); the code adds no
  edge between them, and neither does the model. The documentation of `get_channel_by_name` says that a missing name
  raises an error unless it is created; with `parent_fallback` the code creates it too, and so does the model.

## Model

| member | source | states |
|---|---|---|
| `Channels.PriorityQueue.Len` | queue_job/jobrunner/channels.py:54-55 | the length is the number of jobs added and not removed, however many removed ones still sit in the heap |
| `Channels.PriorityQueue.First` | queue_job/jobrunner/channels.py:57-70 | the first element is a least one of those held; clearing removed ones off the top does not change what is held |
| `Channels.PriorityQueue.Add` | queue_job/jobrunner/channels.py:75-83 | the job is held afterwards, once, also when it was removed and still sat in the heap |
| `Channels.PriorityQueue.Remove` | queue_job/jobrunner/channels.py:85-91 | the job is no longer held, whether or not it was |
| `Channels.PriorityQueue.Pop` | queue_job/jobrunner/channels.py:93-104 | a least job is returned and no longer held; none exactly when nothing is held |
| `Channels.ChannelQueue.Contains` | queue_job/jobrunner/channels.py:319-320 | a job is in the queue exactly when it is ready or waiting |
| `Channels.ChannelQueue.Add` | queue_job/jobrunner/channels.py:322-326 | a job with an eta waits for it, any other job is ready; no other job is touched |
| `Channels.ChannelQueue.Remove` | queue_job/jobrunner/channels.py:328-330 | the job is neither ready nor waiting, all others are as before |
| `Channels.ChannelQueue.Pop` | queue_job/jobrunner/channels.py:332-346 | jobs whose eta has passed are ready; what is popped has the least priority of those ready, the earliest date at that priority and the least number at that date; none is popped exactly when none is ready or, in a sequential queue, the waiting job with the earliest eta ranks before the best ready one |
| `Channels.ChannelQueue.GetWakeupTime` | queue_job/jobrunner/channels.py:348-354 | the least of the time given and the etas of the waiting jobs |
| `Channels.BlockedExactly` | queue_job/jobrunner/channels.py:337-345 | comparing any earliest waiting job with any best ready one decides whether a sequential queue is blocked: ties do not matter |
| `Yielding.NothingToPopExactly` | queue_job/jobrunner/channels.py:332-346 | nothing is popped exactly when no job is due or, in a sequential queue, the next job to wait for has a smaller priority than every due one, or an earlier date at the same priority, or a smaller number at the same date |
| `Yielding.LeastGoesFirst` | queue_job/jobrunner/channels.py:214-225 | jobs with an eta go first, then the earlier eta, the smaller priority, the earlier date, the smaller number |
| `Yielding.DocumentedOrder` | queue_job/jobrunner/channels.py:139-176 | the six jobs of the documentation are in the order 6, 4, 5, 3, 1, 2 |
| `Channels.Channel.Configure` | queue_job/jobrunner/channels.py:426-440 | the settings are stored, and the error for a sequential channel whose capacity is not 1 is reported after that |
| `Channels.Channel.Remove` | queue_job/jobrunner/channels.py:463-469 | the job disappears from the channel and all its ancestors, and nothing else changes |
| `Channels.Channel.SetDone` | queue_job/jobrunner/channels.py:471-477 | a job that is done disappears from the channel and all its ancestors, and nothing else changes |
| `Channels.Channel.SetPending` | queue_job/jobrunner/channels.py:479-491 | unless it is queued in its channel already, the job is queued there and disappears from the ancestors |
| `Channels.Channel.SetRunning` | queue_job/jobrunner/channels.py:493-504 | the job runs in the channel and in the ancestors up to the first where it ran already, and is queued or failed in none of these |
| `Channels.Channel.SetFailed` | queue_job/jobrunner/channels.py:506-514 | unless it is failed in its channel already, the job is failed there and disappears from the ancestors |
| `Channels.Channel.YieldHere` | queue_job/jobrunner/channels.py:545-572 | unless paused, best ready jobs are popped one after the other while there is capacity, one only if there is a throttle, which then pauses the channel |
| `Channels.Channel.GetJobsToRun` | queue_job/jobrunner/channels.py:525-572 | every channel upstream receives what its children yield and yields in turn; the channel returns what it yields itself; no eta changes of a job that stays in a heap |
| `Channels.Channel.GetWakeupTime` | queue_job/jobrunner/channels.py:574-592 | the least time among those of the channels that are not full and not below a paused or full one; what the queues hold does not change |
| `Yielding.WakeTimesExactly` | queue_job/jobrunner/channels.py:574-592 | the times asked for are exactly the ends of pauses and the etas of waiting jobs in channels from which a job gets through: none on the way is full, or sequential with a failed job, or, after the channel itself, paused |
| `Yielding.YieldsNothingExactly` | queue_job/jobrunner/channels.py:516-562 | a channel yields nothing exactly when it is paused, sequential with a failed job, runs as many jobs as its non-zero capacity, or has nothing to pop |
| `Yielding.YieldsUntilFull` | queue_job/jobrunner/channels.py:516-562 | a channel that is not paused stops yielding only with nothing to pop, a failed job in a sequential channel, or as many jobs running as its non-zero capacity |
| `Yielding.YieldsTheDue` | queue_job/jobrunner/channels.py:562-572 | what is yielded was ready or its eta has come, and runs afterwards; all other jobs stay queued; a throttle lets one through and pauses the channel for its length |
| `Yielding.YieldsByPriority` | queue_job/jobrunner/channels.py:217-218 | jobs are yielded by priority, at equal priority by date, at equal date by number, and none left ready should have come before one yielded |
| `Yielding.DispatchYieldsUntilFull` | queue_job/jobrunner/channels.py:525-572 | in a dispatch every channel of the tree yields nothing exactly in the four cases, what its children yield included, and stops only in one of them |
| `Yielding.DispatchYieldsByPriority` | queue_job/jobrunner/channels.py:541-572 | in a dispatch every channel of the tree yields what was due in it or comes from its children, by priority, date and number, before what it leaves ready |
| `Dispatching.YieldsSettles` | queue_job/jobrunner/channels.py:545-572 | after yielding, a channel is out of capacity, paused or has nothing to pop, and a pause ends in the future |
| `Dispatching.DispatchIsMaximal` | queue_job/jobrunner/channels.py:525-572 | after a dispatch, every channel of the tree is out of capacity, paused, or has nothing to pop, and no pause has ended already |
| `Dispatching.YieldsBestFirst` | queue_job/jobrunner/channels.py:562-568 | jobs are yielded at most once, best first, and none left ready ranks before one yielded |
| `Dispatching.YieldsWithinCapacity` | queue_job/jobrunner/channels.py:516-523 | a channel within its capacity stays within it |
| `Dispatching.SilentUntilWakeup` | queue_job/jobrunner/channels.py:574-592 | once every channel is out of capacity, paused or without anything to pop, a channel yields nothing before its wakeup times |
| `Dispatching.NoMissedWakeup` | queue_job/jobrunner/channels.py:525-592 | after a dispatch, another one before the wakeup time, or ever if there is none, yields nothing |
| `Dispatching.WakeupIsInTheFuture` | queue_job/jobrunner/channels.py:557-560 | after a dispatch no wakeup time has passed already, so the runner does not wake up again and again |
| `Runners.RunWaitRun` | queue_job/jobrunner/runner.py:462-513 | running jobs, waiting and running jobs again, with no notification in between: the time asked for is never past, and waking up before it finds nothing to run |
| `Runners.NotifyRecorded` | queue_job/jobrunner/channels.py:1023-1061 | a call of `notify` goes on from any run by a lookup step and a notification step |
| `Runners.RemoveDbRecorded` | queue_job/jobrunner/channels.py:1069-1073 | a call of `remove_db` goes on from any run by one step |
| `Runners.DispatchRecorded` | queue_job/jobrunner/channels.py:1075-1076 | a dispatch goes on from any run by one step, when the clock has not gone back |
| `Location.HasPosition` | queue_job/jobrunner/channels.py:463-514 | a job is absent, failed in its own channel, running everywhere on its path, or queued in one channel of its path and running in those strictly below; only one of these holds |
| `Location.SetDoneLocates` | queue_job/jobrunner/channels.py:471-477 | from any position a job that is done becomes absent, all others staying where they are |
| `Location.SetPendingLocates` | queue_job/jobrunner/channels.py:479-491 | from any position a pending job becomes queued in its own channel |
| `Location.SetFailedLocates` | queue_job/jobrunner/channels.py:506-514 | from any position a failed job becomes failed in its own channel |
| `Location.SetRunningLocates` | queue_job/jobrunner/channels.py:493-504 | a job that is queued in a parent stays queued there; from any other position it becomes running everywhere |
| `Location.DispatchLocates` | queue_job/jobrunner/channels.py:541-568 | dispatching leaves every job in one of the positions |
| `Location.DispatchIsConservative` | queue_job/jobrunner/channels.py:541-572 | a job that is not queued stays where it is, one that is queued moves only towards the root or becomes running; yielded are exactly the jobs that become running |
| `Scheduling.ApplyLocates` | queue_job/jobrunner/channels.py:1048-1061 | where a notified state sends a job, from each position |
| `Notifying.KeptInPlace` | queue_job/jobrunner/channels.py:1048-1061 | after a notification a done, cancelled or vanished job is in no channel, a failed one is failed and a pending one queued in its own channel only, by its eta, an enqueued or started one runs from its channel to the root or stays queued in an ancestor; no other job moves |
| `Notifying.AnewInPlace` | queue_job/jobrunner/channels.py:1036-1061 | the same for a job that gets a new object, which runs to the root when it is enqueued or started; nothing is left of the old object |
| `Scheduling.NotifiedKeptConsistent` | queue_job/jobrunner/channels.py:1048-1061 | a notification about a known job keeps the tree, the positions and one object per job |
| `Scheduling.NotifiedAnewConsistent` | queue_job/jobrunner/channels.py:1036-1047 | a notification that replaces the job because its eta, priority, sequence number or channel changed keeps the tree, the positions and one object per job |
| `Scheduling.RemovedConsistent` | queue_job/jobrunner/channels.py:1063-1067 | removing a job keeps the tree, the positions of the others and one object per job |
| `Scheduling.DispatchedConsistent` | queue_job/jobrunner/channels.py:1075-1076 | a dispatch keeps the tree, the positions and one object per job |
| `Scheduling.DispatchedPresent` | queue_job/jobrunner/channels.py:541-568 | dispatching makes no job appear in or disappear from the channels |
| `Scheduling.GrownConsistent` | queue_job/jobrunner/channels.py:1015-1020 | creating a channel keeps the tree, the positions and one object per job |
| `Scheduling.LookupConsistent` | queue_job/jobrunner/channels.py:1015-1020 | creating any number of channels keeps the tree, the positions and one object per job, and changes nothing of the channels there were but their children |
| `Scheduling.RemovedAllConsistent` | queue_job/jobrunner/channels.py:1069-1073 | removing any number of jobs keeps the tree, the positions, one object per job and the settings |
| `Scheduling.StalePauseNeverEnds` | queue_job/jobrunner/channels.py:545-560 | through any number of dispatches and of steps that keep the settings, a channel that lost its throttle while paused keeps the end of that pause as its wakeup time |
| `Runs.RunConsistent` | queue_job/jobrunner/channels.py:1023-1079 | at every moment of any run of notifications, removals of jobs and databases, lookups and dispatches the channels form a tree, every job is in one of the positions, and there is one object per job |
| `Runs.RunWithinCapacity` | queue_job/jobrunner/channels.py:516-572 | over any run, no channel ever runs more jobs than its capacity, exactly as long as there is room on the way to the root for every enqueued or started job that is notified and does not run yet, a replaced job leaving its own room first |
| `Runs.StepWithinCapacity` | queue_job/jobrunner/channels.py:493-523 | of all steps, exactly a notification of such a job without room exceeds a capacity |
| `Runs.ExpectedWithinCapacity` | queue_job/jobrunner/channels.py:516-572 | over any run in which enqueued and started jobs are notified only when they run to the root already and keep their channel, no capacity is exceeded, also when a changed eta or priority replaces a running job |
| `Runners.ExceedCapacity` | queue_job/jobrunner/channels.py:1053-1054 | a new channel manager that is told of two started jobs runs both, over the capacity of its root |
| `Runs.SetRunningIgnoresCapacity` | queue_job/jobrunner/channels.py:493-504 | marking a job running keeps all capacities exactly when no limited channel of its path was full |
| `Runs.RunThrottles` | queue_job/jobrunner/channels.py:545-572 | over any run a throttled channel yields one job at a time, and two of them at least the throttle apart, whatever is notified in between |
| `ChannelNames.JoinOfSplit` | queue_job/jobrunner/channels.py:1015 | splitting a name at its dots and joining the parts gives the name back |
| `ChannelNames.SplitOfJoin` | queue_job/jobrunner/channels.py:442-448 | the full name of a channel splits into the names on its path |
| `ChannelNames.ParentName` | queue_job/jobrunner/channels.py:1004 | what `rsplit` leaves is the name of the parent |
| `ChannelNames.StartsWithRoot` | queue_job/jobrunner/channels.py:991-992 | a name starts with the root and a dot exactly when its first component is the root's name and another follows |
| `Lookups.FallbackIsLongest` | queue_job/jobrunner/channels.py:998-1014 | the fallback is the longest registered proper prefix of the name |
| `Lookups.AutocreateIsExact` | queue_job/jobrunner/channels.py:989-1021 | creating without fallback returns the channel with the very name asked for |
| `Lookups.FallbackIsStable` | queue_job/jobrunner/channels.py:998-1020 | looking an unregistered name up again finds the same channel exactly when the name does not go on, after its longest registered prefix, with what follows the root in it |
| `Lookups.UnstableName` | queue_job/jobrunner/channels.py:998-1020 | when only `root.a` was registered, `root.a.a.b` finds `root.a.a.a.b` first and `root.a.a.a.a.b` from the second lookup on |
| `Lookups.RepeatedName` | queue_job/jobrunner/channels.py:998-1020 | a lookup that will not find the same channel again registers more of the name than was registered |
| `Lookups.LookupsSettle` | queue_job/jobrunner/channels.py:998-1020 | for any name and any registered paths, repeated lookups find the same channel from some lookup on, earlier than the name has components |
| `Lookups.ChangesAreFew` | queue_job/jobrunner/channels.py:998-1020 | as any other channels come to be registered, a name finds another channel than before at most as often as more of it is registered, and less often than it has components |
| `ChannelManagers.ChannelManager.constructor` | queue_job/jobrunner/channels.py:801-806 | only a root with a capacity of 1 |
| `ChannelManagers.ChannelManager.FullName` | queue_job/jobrunner/channels.py:442-448 | the names from the root to the channel, joined by dots |
| `ChannelManagers.NormalName` | queue_job/jobrunner/channels.py:989-992 | a name that does not start with the root and a dot is put below the root, any other is taken as it is |
| `ChannelManagers.ChannelManager.FindFallback` | queue_job/jobrunner/channels.py:997-1014 | the loop finds the channel at the longest registered proper prefix |
| `ChannelManagers.ChannelManager.Descend` | queue_job/jobrunner/channels.py:1015-1021 | the channel at the path extended by the names, created with its missing ancestors and registered under their names |
| `ChannelManagers.ChannelManager.GetChannelByName` | queue_job/jobrunner/channels.py:945-1021 | the registry stays exactly the dotted paths of the tree; which channel is returned, which are created and in which order, and when the error is raised |
| `ChannelManagers.ChannelManager.Configure` | queue_job/jobrunner/channels.py:930-943 | settings change and the jobs stay where they are; what the scheduler relies on is kept exactly unless a paused channel loses its throttle |
| `ChannelManagers.ChannelManager.Notify` | queue_job/jobrunner/channels.py:1023-1061 | the job object is kept exactly when rank, eta and channel are the same, replaced otherwise, and then moved as its state says; its channel is the one the name stands for |
| `ChannelManagers.ChannelManager.RemoveJob` | queue_job/jobrunner/channels.py:1063-1067 | the job is gone from its channels and forgotten |
| `ChannelManagers.ChannelManager.RemoveDb` | queue_job/jobrunner/channels.py:1069-1073 | exactly the jobs of the other databases are left, and stay where they are; the others are removed one after the other |
| `ChannelManagers.ChannelManager.GetJobsToRun` | queue_job/jobrunner/channels.py:1075-1076 | a dispatch of the whole tree; the jobs known stay known |
| `ChannelManagers.ChannelManager.GetWakeupTime` | queue_job/jobrunner/channels.py:1078-1079 | the least wakeup time of the tree, which stays as it is |
| `ChannelManagers.PathsAreClosed` | queue_job/jobrunner/channels.py:404-409 | the parent of a registered path is registered |
| `ChannelManagers.LongerPathIsUpstream` | queue_job/jobrunner/channels.py:1000-1020 | the channel at a prefix of a path is on the way to the root, so its capacity applies |
| `ChannelManagers.ConfiguredConsistent` | queue_job/jobrunner/channels.py:426-440 | configuring a channel keeps the tree, the positions and one object per job, and that only throttled channels pause exactly unless a paused one loses its throttle |
| `JobProtocol.RunSafe` | queue_job/models/queue_job.py:312-347 | at every moment of any interleaving, jobs that are pending, enqueued or performed have had all their dependencies done |
| `JobProtocol.PerformedAfterDependencies` | queue_job/controllers/main.py:85-104 | a job is performed only if each of its dependencies was DONE at some earlier moment, through requeues, manual changes, timeouts, restarts and stale requests |
| `Releases.RunForgetsNone` | queue_job/controllers/main.py:149-151 | over any run, a waiting job with all dependencies done always has one of them about to be released, exactly as long as no worker dies with a release that it alone was to make |
| `Releases.CrashForgetsNone` | queue_job/controllers/main.py:149-151 | the death of a releasing worker loses a release exactly when a ready job depends on its job and on that of no other releasing worker |
| `Releases.StepWhenStuck` | queue_job/job.py:537-567 | a job that could start, while no worker and no queue holds it or what it waits for, stays so through every step but exactly those of an operator who sees to it or to what it waits for |
| `Releases.StuckForEver` | queue_job/job.py:537-567 | over the rest of any run such a job waits as long as the operator leaves it and its dependencies alone, and no longer |
| `Releases.DyingLeavesStuck` | queue_job/controllers/main.py:36-40 | a worker that dies after its commit of DONE leaves a job stuck exactly when it served the last unfinished dependency and nothing else holds the job or what it waits for |
| `Releases.DyingIsPossible` | queue_job/controllers/main.py:36-40 | from any such state the worker can commit DONE and die, and the job is stuck |
| `Releases.LostForEver` | queue_job/controllers/main.py:36-40 | from any such state of any run the job waits from then on, until the operator sees to it |
| `Releases.WaitingHasUnfinishedDependency` | queue_job/job.py:537-567 | with no release lost or outstanding, every waiting job has a dependency that is not done |
| `Releases.CrashLosesRelease` | queue_job/controllers/main.py:36-40 | a run in which a worker dies as in `LostForEver`, and its child is stuck with no worker and no request left |
| `Executors.RunSingle` | queue_job/controllers/main.py:85-104 | over any run, no two workers perform the same job, and nothing can start a job being performed, exactly as long as the operator does not requeue a job while it is performed; stale requests, timeouts, restarts, manual done and cancel do no harm |
| `Executors.StepSingle` | queue_job/models/queue_job.py:312-347 | of all steps, exactly requeuing a job being performed gives this up |
| `Executors.RunExclusive` | queue_job/controllers/main.py:85-104 | over any run, every job has at most one executor and is stored as STARTED while it is performed, exactly as long as the operator neither requeues nor cancels nor sets to done a job being performed |
| `Executors.RequeueCanDuplicate` | queue_job/models/queue_job.py:344-347 | from any state with at most one executor, requeuing a job that is being performed can end with two workers performing it without any further requeue, whatever has become of its dependencies |
| `Releases.ReleaseForgetsNone` | queue_job/job.py:537-567 | releasing leaves no child behind that has all its dependencies done |
| `Executors.GateSingle` | queue_job/controllers/main.py:85-104 | of several requests for a job only one gets past the gate |
| `Executors.TimeoutSingle` | queue_job/jobrunner/runner.py:210-228 | resetting a timed-out job cannot take it from a worker that performs it |
| `Executors.DispatchSingle` | queue_job/jobrunner/runner.py:425-440 | writing ENQUEUED without looking at the state never hits a job being performed |
| `Workers.OutcomeIsStored` | queue_job/controllers/main.py:103-147 | after any number of attempts the row is DONE exactly when the last one made succeeded, FAILED exactly when it met an error or spent the last retry, and otherwise PENDING or waiting by the dependencies |
| `Workers.FailedStaysFailed` | queue_job/controllers/main.py:135-147 | from a state with one executor, a job whose worker failed is neither performed nor queued before it is requeued, whatever else happens, and is FAILED until then unless an operator sets it to done or cancels it |
| `Workers.StepRests` | queue_job/models/queue_job.py:344-347 | of all steps, exactly requeuing ends the rest of a failed, done or cancelled job |
| `Workers.RequeuedCanBePerformed` | queue_job/models/queue_job.py:344-347 | requeuing a job at rest whose dependencies are done lets it be performed with steps of the runner alone |
| `Workers.PostponedCanBePerformed` | queue_job/controllers/main.py:125-133 | a job that was postponed while its dependencies are done can be performed again with steps of the runner alone |
| `Workers.TimedOutCanBePerformed` | queue_job/jobrunner/runner.py:210-228 | an enqueued job whose request got lost can be performed after its timeout, with steps of the runner alone |
| `RunnerView.ApplyMoves` | queue_job/jobrunner/channels.py:1048-1061 | the channels move the job to the position that its state demands |
| `RunnerView.NotifiedKeptRefines` | queue_job/jobrunner/runner.py:442-460 | a notification about a known job does to its place what the protocol says, and leaves the places of all others |
| `RunnerView.NotifiedAnewRefines` | queue_job/jobrunner/channels.py:1036-1047 | a notification that replaces the job does to its place what the protocol says of a job that loses a place it would keep otherwise, and leaves the places of all others |
| `JointRuns.NotifyIsStep` | queue_job/jobrunner/runner.py:442-460 | whatever it does to the job object, a notification is a step of the protocol for the row that was read, after which the channels show what the protocol says of every job |
| `JointRuns.DropIsStep` | queue_job/jobrunner/channels.py:1063-1073 | removing a job, or all jobs of a database, is the step by which a runner drops them, and no other job changes its place |
| `RunnerView.ForgottenRefines` | queue_job/jobrunner/channels.py:799-805 | that a job in no channel is forgotten changes nothing that the protocol sees |
| `JointRuns.DispatchIsNoStep` | queue_job/jobrunner/runner.py:425-440 | for the store, a dispatch changes nothing until its jobs are sent: each was queued and counts as queued until then |
| `JointRuns.SendIsStep` | queue_job/jobrunner/runner.py:427-440 | sending a yielded job is the step of the protocol that takes it from queued to running, whatever workers and operators did since it was yielded |
| `RunnerView.LookupRefines` | queue_job/jobrunner/channels.py:945-1021 | a lookup creates channels and moves no job |
| `RunnerView.RemovedAllRefines` | queue_job/jobrunner/channels.py:1069-1073 | removing jobs one after the other takes away their places and no others |
| `JointRuns.StepIsPath` | queue_job/jobrunner/runner.py:425-460 | every call of the channel manager whose notifications read the current row, every job sent, and everything done to the store meanwhile is one step of the protocol or none |
| `JointRuns.StoredCanHappen` | queue_job/controllers/main.py:72-153 | whatever workers, requests and operators can do in the protocol they can do beside the channel manager |
| `JointRuns.RunSound` | queue_job/jobrunner/runner.py:499-513 | over any joint run the channels stay consistent and the jobs in them have had their dependencies done |
| `JointRuns.RunSingle` | queue_job/jobrunner/runner.py:425-460 | over any joint run of channel manager, store, requests, workers and operators, no two workers perform the same job and nothing can start a job being performed, exactly as long as no job is requeued while it is performed |
| `JointRuns.RunIsPath` | queue_job/jobrunner/runner.py:425-460 | what a joint run makes of the store is a path of the protocol |
| `RunnerView.DispatchRefines` | queue_job/jobrunner/runner.py:425-440 | a dispatch takes exactly the yielded jobs from queued to running |
| `Jobs.Job.AddDepends` | queue_job/job.py:499-508 | the dependencies are recorded at both ends, and the job waits if one is not done; refused for the job itself |
| `Jobs.AddLinked` | queue_job/job.py:499-506 | the two ends of the dependencies stay in step |
| `Jobs.Job.SetPending` | queue_job/job.py:792-805 | pending exactly when all dependencies are done, waiting otherwise |
| `Jobs.Job.Perform` | queue_job/job.py:510-535 | it returns exactly when the method succeeds and fails exactly on an error or on a retry asked for when the non-zero maximum is reached; every try counts but one that asks not to |
| `Jobs.Job.GetRetrySeconds` | queue_job/job.py:841-856 | the seconds given, or those of the last entry of the pattern that the tries have reached, or the default; between the bounds where two are given |
| `Jobs.AttemptsEndAtFirst` | queue_job/job.py:510-535 | attempts end with the first that succeeds, meets an error, or asks for a retry when the tries counted reach the non-zero maximum; the job returns in the first case, fails in the others, and every attempt made was counted but those that ask not to be |
| `Jobs.RetriesAreBounded` | queue_job/job.py:510-535 | a job is postponed over and over exactly while each outcome is a conflict, an uncounted retry, or a counted one below the maximum |
| `Graphs.Graph.AddVertex` | queue_job/delay.py:69-74 | a vertex is added without edges unless it is there |
| `Graphs.Graph.AddEdge` | queue_job/delay.py:76-82 | exactly this edge is added, and a closed graph stays closed |
| `Graphs.Graph.Edges` | queue_job/delay.py:88-94 | every edge is listed once |
| `Graphs.Graph.RootVertices` | queue_job/delay.py:147-155 | exactly the vertices without predecessors |
| `Graphs.Graph.InDegrees` | queue_job/delay.py:132-134 | the counters are the numbers of predecessors |
| `Graphs.Graph.TopologicalSort` | queue_job/delay.py:125-145 | no vertex is yielded twice, each after all its predecessors, and all of them exactly when the graph is acyclic |
| `Graphs.AcyclicMeansNoCycle` | queue_job/delay.py:128-130 | acyclic, in the sense that every set of vertices has a member without predecessors in it, is the same as having no cycle |
| `Graphs.PathsFollowOrder` | queue_job/delay.py:126-130 | the end of a path is yielded after its start |
| `Graphs.KahnReleases` | queue_job/delay.py:142-145 | counting a neighbour down keeps every counter equal to the number of predecessors not yielded, and a counter reaches 0 exactly for a vertex not met before |
| `Graphs.KahnFinishes` | queue_job/delay.py:136-145 | with the queue empty, an acyclic graph has been yielded whole |
| `Graphs.Graph.Paths` | queue_job/delay.py:98-123 | exactly the maximal cycle-free paths from the vertex, each once, in any closed graph |
| `Graphs.Graph.Search` | queue_job/delay.py:110-121 | the search continues the path in every maximal way and restores path and seen vertices |
| `Graphs.SearchIsExact` | queue_job/delay.py:99-106 | what the search collects are exactly the maximal cycle-free extensions of the path |
| `Delayables.Delayable.Unit` | queue_job/delay.py:452-463 | a single job is the only vertex of its graph |
| `Delayables.Delayable.Chain` | queue_job/delay.py:320-329 | the graph of a chain has its elements as vertices and an edge from each to the next |
| `Delayables.Delayable.Group` | queue_job/delay.py:377-381 | the graph of a group has its members as vertices and no edge |
| `Delayables.Delayable.OnDone` | queue_job/delay.py:341-349 | exactly the edges from the last element, or from every member, to the followers are added, and exactly their ends become vertices |
| `Delayables.MergeGraph` | queue_job/delay.py:172-186 | exactly the links from every tail of a vertex to every head of its neighbours are added, and all tails become vertices |
| `Delayables.ConnectGraphs` | queue_job/delay.py:188-212 | the walk ends; it visits exactly the graphs reachable from the first, and returns exactly the links of their edges |
| `Delayables.ConnectVisits` | queue_job/delay.py:204-208 | merging and queueing the graph of a vertex keeps the result equal to the links of the graphs reached |
| `Delaying.StoreGraph` | queue_job/delay.py:253-265 | every job depends on exactly the jobs linked to it, at both ends, and waits exactly if there are any; refused exactly when a job is linked to itself |
| `Flattening.CoherentIsAttached` | queue_job/delay.py:331-335 | a term and all nested in it are linked by their first and last jobs exactly when the ends of every chain have the same heads as tails |
| `Flattening.CompiledIsClosed` | queue_job/delay.py:173-180 | the compiled graph holds single jobs only, and every link leads to one of its vertices |
| `Flattening.EndsAreInside` | queue_job/delay.py:383-387 | heads and tails are jobs nested in the term, and there are some unless a group is empty |
| `Flattening.LinkIsEdge` | queue_job/delay.py:181-186 | every link stands for an edge of a visited graph |
| `Flattening.EdgeIsKept` | queue_job/delay.py:188-212 | for every edge of a visited graph there is a path from every job inside its start to every job inside its end |
| `Flattening.AskedIsKept` | queue_job/delay.py:188-212 | what edges ask for one after the other is kept as a path |
| `Flattening.PathWasAsked` | queue_job/delay.py:188-212 | every path of the compiled graph was asked for link by link |
| `Flattening.AcyclicAsAsked` | queue_job/delay.py:54-59 | the compiled graph is acyclic exactly when nothing was asked to wait for itself |
| `Flattening.PerformedAsAsked` | queue_job/delay.py:294-296 | executed in the order of the sort, a job comes after every job it was asked to wait for |
| `Flattening.WaitsForNothing` | queue_job/delay.py:181-186 | whatever the net, a job waits for nothing exactly when no edge that starts at some job ends at something that has it among its heads |
| `Flattening.JobEscapes` | queue_job/delay.py:331-332 | a job held by the end of an edge, but among the heads of no edge's end, was asked to wait and waits for nothing |
| `Nesting.NestedChainEscapes` | queue_job/delay.py:331-332 | the first job of a chain nested first in a chain that follows a job was asked to wait for it and waits for nothing |
| `Nesting.CompileNestedChain` | queue_job/delay.py:320-349 | such a chain is built with the constructors and `on_done`, and its compiled graph lets the job start first |
| `AssetBoards.Asset.ValueResidual` | om_account_asset/models/account_asset.py:360-367 | value less posted amounts less salvage |
| `AssetBoards.Asset.UndoneDotations` | om_account_asset/models/account_asset.py:191-201 | the number of lines, counted by dates up to the end if there is one |
| `AssetBoards.PeriodsFit` | om_account_asset/models/account_asset.py:193-198 | period k is counted exactly when it is due by the ending date |
| `AssetBoards.Asset.ComputeDepreciationBoard` | om_account_asset/models/account_asset.py:204-271 | posted lines are kept, the others planned afresh: lines, amounts and dates are what the lemmas below say of the plan |
| `AssetBoards.Asset.CreateMove` | om_account_asset/models/account_asset.py:501-508 | the line is posted, unless it was |
| `AssetBoards.Asset.Dispose` | om_account_asset/models/account_asset.py:314-345 | planned lines give way to one for all that is left |
| `AssetBoards.PlanIsComplete` | om_account_asset/models/account_asset.py:159-162 | planned lines add up to what is left, whatever the method and the rounding, if there is room for one |
| `AssetBoards.PlannedLine` | om_account_asset/models/account_asset.py:240-258 | a zero amount makes no line and does not advance the date; each line is due a period after the one before |
| `BoardLines.LineCountFits` | om_account_asset/models/account_asset.py:191-201 | as many lines as asked for, or as there are dates up to the end, and one more with prorata |
| `BoardLines.DegressiveLines` | om_account_asset/models/account_asset.py:177-178 | without prorata every degressive line but the last is within half a unit of the factor times what remained before it |
| `BoardLines.EvenLines` | om_account_asset/models/account_asset.py:163-165 | without prorata every linear line but the last is within half a unit of what was left over the lines there was room for |
| `BoardLines.ProrataLines` | om_account_asset/models/account_asset.py:166-188 | with prorata a linear line is within half a unit of what was left over the number of lines, a degressive one of the factor times what remained; the first of all, of the share of that; the last line excepted |
| `BoardLines.PlannedAmounts` | om_account_asset/models/account_asset.py:159-189 | every planned line is worth the amount for its number, to the nearest unit, and the last is all that remains |
| `BoardLines.GapsAreNothing` | om_account_asset/models/account_asset.py:242-245 | a number has no line only if its line would be worth nothing, to the nearest unit |
| `BoardLines.ProrataSplitsOneLine` | om_account_asset/models/account_asset.py:166-175 | over a linear prorata board with nothing posted the first line is the share of a regular one, the last the rest of it, at most n/2 units away for the rounding, and the others are regular |
| `BoardLines.DueDates` | om_account_asset/models/account_asset.py:214-234 | planned lines are due a period apart, from the first date on or a period after the latest posted line |
| `BoardLines.DisposalIsFinal` | om_account_asset/models/account_asset.py:314-345 | after a disposal every line is posted and recomputing changes nothing |
| `AssetBoards.RecomputeBalances` | om_account_asset/models/account_asset.py:204-271 | salvage, posted and planned amounts make up the value exactly when the board has room |
| `AssetBoards.RecomputeIsIdempotent` | om_account_asset/models/account_asset.py:204-271 | recomputing twice changes nothing more |
| `AssetBoards.LinesAreCumulative` | om_account_asset/models/account_asset.py:246-255 | a new line shows the total of all lines up to it and what remains after it |
| `AssetBoards.RunBalances` | om_account_asset/models/account_asset.py:501-509 | over any run of postings, recomputations and disposals the value stays accounted for exactly when the last recomputation had room or a disposal came later |
| `AssetBoards.EndDateDropsLines` | om_account_asset/models/account_asset.py:236-240 | with an ending date, recomputing keeps the balance exactly while fewer than half of the lines are posted |
| `AssetBoards.EndDateLosesHalf` | om_account_asset/models/account_asset.py:236-240 | a run of computing, posting and computing again after which half of the value is neither posted nor planned |
| `AssetBoards.LastLineIsNear` | om_account_asset/models/account_asset.py:161-165 | over n lines the last is at most (n-1)/2 units from the even share, all others are the rounded share |
| `AssetBoards.DegressiveBoardShrinks` | om_account_asset/models/account_asset.py:177-178 | what remains is never negative, drops with every line, and is nothing in the end |
| `TrialBalances.Collect` | trial_balance_report/reports/report_trial_balance.py:121-136 | the run of rows of the account at the cursor is added up and passed |
| `TrialBalances.AccountTrialBalance` | trial_balance_report/reports/report_trial_balance.py:95-191 | the sums and lines of the merge over all accounts, for any rows: what the lemmas below say of them |
| `TrialBalances.CursorStops` | trial_balance_report/reports/report_trial_balance.py:102-151 | both lists being sorted, exactly the rows before the first that is not of an active account are merged |
| `TrialBalances.AllMergedWhenKnown` | trial_balance_report/reports/report_trial_balance.py:102-151 | both lists being sorted, all rows are merged exactly when all are of active accounts |
| `TrialBalances.GroupIsComplete` | trial_balance_report/reports/report_trial_balance.py:121-136 | an account is merged with all its rows and no other |
| `TrialBalances.LinesAreAccounts` | trial_balance_report/reports/report_trial_balance.py:167-172 | the lines are exactly those of the active accounts with any figure that is not 0, with the sums of all their rows |
| `TrialBalances.LinesAreInOrder` | trial_balance_report/reports/report_trial_balance.py:102-172 | the lines are in the order of the accounts, one at most for each |
| `TrialBalances.HiddenIsNothing` | trial_balance_report/reports/report_trial_balance.py:170-172 | an account is left out exactly when all its figures are 0, those of its closing balance included |
| `TrialBalances.ClosingIsOneSided` | trial_balance_report/reports/report_trial_balance.py:153-168 | the closing balance of a line is on one side only, not negative, and is what its debits and credits differ by |
| `TrialBalances.LinesAddUp` | trial_balance_report/reports/report_trial_balance.py:170-180 | for any rows, the printed lines add up to the sums |
| `TrialBalances.SumsAreMerged` | trial_balance_report/reports/report_trial_balance.py:153-180 | for any rows, closing debits less closing credits are those of the rows merged |
| `TrialBalances.BalanceCloses` | trial_balance_report/reports/report_trial_balance.py:174-191 | closing debits equal closing credits exactly when those of the rows do |

## Left out

- Sockets, `select`, HTTP, threads, connection recovery and the stop flag of the runner: only the atomic effects on the
  table and the order of the steps are modelled.
- `heapq` is modelled by what it promises, the least element first and the same elements; the sift is not.
- A generator is modelled as consumed to its end. The runner breaks off only when it is being stopped.
- The dictionary of jobs is a map that may forget a job that is in no channel (`Forget`), which stands for the weak
  references of the code.
- `parse_simple_config`, the splitting of configuration strings.
- Job data of the wrong type, and states that no constant names, which the code logs as errors.
- ChannelManagers.ChannelManager.Notify: requires the database and the creation date of a known job to be unchanged,
  which the code asserts.
- The retries of `_enqueue_dependent_jobs` on serialization errors, and races between transactions of operators: each
  operator step and each release is atomic.
- Several runners on the same table; deletion of jobs, autovacuum and identity keys.
- Job fields other than state, tries and dependencies; result and exception texts.
- A runner that is stopped while it sends the jobs of a dispatch: a joint run starts with a new runner that holds no jobs.
- Delaying.StoreGraph: does not model the common graph identifier of the jobs, their direct execution in test mode, and
  their replacement by existing jobs with the same identity key.
- `__repr__` of a graph.
- Flattening.AskedIsKept: the condition on the ends of chains is shown to be sufficient, and by an example not to be
  superfluous; single terms that break it can keep what was asked for all the same, because another edge asks for the
  same thing or because one such chain around another undoes its effect, and are not singled out. The exact condition is
  proved for where the links are attached (`CoherentIsAttached`), and for which jobs wait for nothing
  (`WaitsForNothing`).
- AssetBoards.Asset.ComputeDepreciationBoard: dates are counted in months, so the adjustment of a date to the length of
  its month is not modelled; the share of a first period is a parameter, because the fiscal year is not part of this
  model. Amounts are whole rounding units.
- Posting the journal entries, grouped entries, closing an asset and its messages.
- The queries of the trial balance: their rows are parameters, and codes are numbers in the order of the query.
- Orders, invoices, taxes, withdrawals, the other accounting reports, customer relations, budgets and spreadsheet
  exports: they read and write records through the framework, with guards on single fields and queries whose meaning lies
  in the database, and keep no state of their own between calls.
