# kitbashd, verified

kitbashd is the resident daemon of kitbash: it registers members' Processes, starts and restores their
containers, schedules their jobs, probes them, routes to them, and fans their Telemetry out. It is a set
of small concurrent protocols, each with a data structure, a lock discipline and a claim about all of
its runs. This project models those protocols in Dafny and proves the claims.

Two shapes recur. A class models what a component does under its lock, with the fields the source
updates and loops where the source has them, and each method is proved against a function of the state
before it. Beside it stands a system: a list of atomic events is a run, any interleaving of any number of
callers is some list, and what the component promises is proved for every run, by induction over it.
Where a promise does not hold, a concrete run shows it, and what does hold is proved beside it.

| file | what it models |
|---|---|
| `Collections.dfy` | sums, subsequences and the enumeration of a map that several components share |
| `FanoutQueue.dfy`, `FanoutConcurrent.dfy`, `FanoutTable.dfy` | a subscriber's byte-bounded queue, alone and under any number of producers; the subscribers and their workers |
| `ActionLock.dfy`, `TickRace.dfy` | the lock per Process id that drops its own entries, and a tick against the calls that unregister its Process |
| `CronSearch.dfy`, `Scheduler.dfy`, `Prober.dfy` | the search for a job's next tick, the jobs and the probes, with the loops that sleep on them |
| `Runtime.dfy`, `Mounts.dfy`, `Start.dfy` | the container runtime with its failures and swapped mount sources, the check before a start, and the starts |
| `Pods.dfy`, `Restore.dfy`, `RestoreAll.dfy` | Processes of several units, one container brought back, and the whole restore with its counts |
| `ReResolver.dfy` | the single flight behind a failed forward |
| `RateLimiter.dfy` | the limiter of internal causes |
| `SessionRegistry.dfy` | the MCP sessions of each Process and their caller credentials |
| `Removal.dfy` | the job that removes a member, over crashes and retries |
| `Surface.dfy` | the tools published for a caller's Processes |
| `FetchLock.dfy`, `ConnectionBudget.dfy` | the copies of images under way, and the proxy's connections |

In the container group every call to the runtime may fail, with its effect or without, and every
preparation of a container may find any folder at any mount source. The log a `Host` keeps is what was
verified and what was started, in order; every operation keeps `Host.Valid()`, which says that no container
of a Process with mounts was ever started in a namespace that was not read before and found to hold what was
validated, a start that erred and ran all the same included. What the daemon logs and goes on from is counted
in `misses`: removals and renames that were to undo something and failed, writes the store did not take, and
calls that erred after they took effect. A contract that allows for one of these compares the counts before
and after its own call, so that a failure excuses only the call it happened in. `against` counts what stood
against the daemon at all: calls that were refused, targets that could not be read, and namespaces that were made
with something else in them than was validated. Where it did not grow every start succeeds, and every step of a
restore comes to exactly the outcome that the host before it calls for.

Six findings are stated as the code has them, each with the exact condition under which it happens:

- `enqueue` evicts the whole queue before it drops a request over `QueueBytes`
  (`internal/daemon/fanout.go:121-143`); the comment at lines 117-118 says that it does not. It happens for
  exactly the requests over the budget (`FanoutQueue.OversizedEmptiesTheQueue`).
- A job registered again with an earlier expression does not wake the loop
  (`internal/daemon/schedule.go:262-272`). A loop with nothing to wake it sleeps past a tick exactly where a
  job held already was given another expression whose next tick is before the loop looks again
  (`Scheduler.OnlyHasteIsSleptPast`, over runs `Scheduler.SleepsPastExactlyHastened`), for at most `ScheduleIdleWait`.
- The search for a job's next tick gives up after five years (`internal/manifest/cron.go:26-30`). It misses a
  date the calendar has exactly where an expression names leap days alone and none of them lies within the
  five years (`CronSearch.HorizonMisses`), which takes a century that is no leap year (`CronSearch.OnlyACenturyIsMissed`).
  A job that is taken from such a time is put a day out (`internal/daemon/schedule.go:361-375`) and started there,
  day after day, at no tick of its expression: exactly then is a run not at a tick (`Scheduler.RunsAreAtTicks`).
- A caller that waited for a re-resolve reads the table again (`internal/daemon/proxy.go:193-199`). Of a call
  that was told yes it hears no exactly where the entry was forgotten, or is a later call that is still going
  or was told no (`ReResolvers.WaiterHearsTheEntry`).
- A member can be recorded as removed with a container still there (`Removal.RemovedLeavesExactly`). An attempt
  leaves exactly the containers that are no registration's own when it begins, and all of them where the account
  is gone already (`internal/daemon/removal.go:244-252`), but for those the deletion of the account takes, whose
  failure is only logged (`internal/sysusers/host.go:203-210`). So there are three ways: an earlier attempt failed
  on a container and deleted its registration all the same (`internal/daemon/removal.go:163-172`); the account
  went and the registration stayed; and, with no step failing at all, the containers of a pod's other units, for
  a registration's own is its face's and no step walks the others (`internal/daemon/removal.go:254-279`).
- A run that fails to start once its hash is stored is not revoked (`internal/daemon/schedule.go:576-578`):
  the hash answers until another is minted for the Process or its row goes (`TickRace.AbandonedTokenAnswers`).

And two requests about one target, or two runs of one job, can be in flight at once where it was dropped under
the first and registered again; `Prober.RequestsInFlight` and `Scheduler.RunsInFlightOfAJob` count them exactly.

## Model

| member | source | states |
|---|---|---|
| FanoutQueue.LongestFitExact | internal/daemon/fanout.go:113-145 | A queue is the longest suffix of a list that fits both bounds if and only if it is what the model computes for that list. |
| FanoutQueue.LongestFitIncremental | internal/daemon/fanout.go:119-145 | Keeping the longest fitting suffix after each request is the same as keeping that of everything ever offered: no eviction is ever regretted. |
| FanoutQueue.OversizedEmptiesTheQueue | internal/daemon/fanout.go:117-143 | A request over the whole byte budget leaves the queue empty, and no other request does: what the code does, where its comment says that such a request costs no other its place. |
| FanoutQueue.Subscriber.Enqueue | internal/daemon/fanout.go:119-145 | With nobody else at the queue, enqueue ends with the longest fitting suffix of the queue and the request, and counts exactly what went. |
| FanoutQueue.Subscriber.Take | internal/daemon/fanout.go:496-503 | The worker takes the oldest request and gives its bytes back, and nothing is counted as dropped. |
| FanoutQueue.QueueIsLongestFitOfAllOffered | internal/daemon/fanout.go:113-145 | Run without a worker, the queue is always the longest suffix of everything offered that fits both bounds, bodies over the budget included. |
| FanoutQueue.NothingReorderedOrUncounted | internal/daemon/fanout.go:113-145 | In any order of offers and takes, delivered plus queued is an order-preserving subsequence of what was offered, and offered = delivered + queued + dropped. |
| FanoutConcurrent.RunKeepsInv | internal/daemon/fanout.go:119-151 | At every atomic step of k producers and the worker: held is queued bytes minus sent and not yet added plus taken and not yet released; and the bounds, the order and the counts hold. |
| FanoutConcurrent.QueueStaysBounded | internal/daemon/fanout.go:119-151 | In every interleaving the queue holds at most QueueDepth requests and QueueBytes + (k - 1) * M bytes, with held exact. |
| FanoutConcurrent.OneProducerIsExact | internal/daemon/fanout.go:119-151 | With one producer the queue never passes QueueBytes, and delivered plus queued is in the order offered. |
| FanoutConcurrent.NothingLostUncounted | internal/daemon/fanout.go:119-151 | In every interleaving offered = delivered + queued + dropped + in a producer's hand, and what is delivered and queued is in the order sent. |
| FanoutConcurrent.AloneKeepsTheNewest | internal/daemon/fanout.go:119-145 | With nobody interleaving, the atomic steps of one producer from the check to its return end with the longest fitting suffix of the queue and its request, which is what the one call modelled in `FanoutQueue` ends with, and count exactly what went. |
| FanoutConcurrent.AloneRunKeepsTheNewest | internal/daemon/fanout.go:119-145 | The same over runs: from wherever a run leaves nobody inside enqueue, the next request that is offered alone evicts the oldest and is kept where it fits. |
| FanoutConcurrent.RefusedOnlyFromEmpty | internal/daemon/fanout.go:129-143 | In every interleaving a request is refused only after its own producer found the queue empty and then still no room, by the last two steps it took. |
| FanoutConcurrent.TheBoundIsReached | internal/daemon/fanout.go:122-128 | The bound is reached, for every number of producers and every body size for which the queue has slots: k producers that all pass the check before any sends leave QueueBytes + (k - 1) * M bytes queued. |
| FanoutConcurrent.EnqueueReturns | internal/daemon/fanout.go:121-144 | Every enqueue under way returns: however k producers and the worker interleave, the steps they take before another request is offered are bounded. |
| FanoutTable.Fanout.Track | internal/daemon/fanout.go:235-261 | A registration keeps, replaces or drops its subscriber, and says whom the caller has to stop and to start once it has let go of the lock. |
| FanoutTable.Fanout.Untrack | internal/daemon/fanout.go:264-274 | The subscriber leaves the table, and is the caller's to stop. |
| FanoutTable.Fanout.Reload | internal/daemon/fanout.go:298-337 | After a reload the table is exactly the registrations: whoever is wanted as it was keeps its queue with a new secret, everybody else is stopped, and every other registration begins with a queue of its own. |
| FanoutTable.Fanout.Close | internal/daemon/fanout.go:341-360 | Every subscriber leaves the table, for the caller to stop, and the table is closed; a second close does nothing. |
| FanoutTable.RunKeepsInv | internal/daemon/fanout.go:235-360 | In every interleaving a subscriber ever made is listed, owed its stop or stopped, only one of the three, and has one worker. |
| FanoutTable.StoppedOnceWorkedOnce | internal/daemon/fanout.go:235-360 | However registrations, reloads and the close interleave, a stop channel is closed once at most and no subscriber gets a second worker. |
| FanoutTable.OneLivePerProcess | internal/daemon/fanout.go:235-337 | A subscriber is neither stopped nor about to be if and only if it is the one listed for its Process. |
| FanoutTable.UnregisteredIsStopped | internal/daemon/fanout.go:235-274 | A Process that is unregistered, or registered again without a subscription, is out of the table in every reachable state and its subscriber owed its stop for the first time; nobody else moves. |
| FanoutTable.ClosedForGood | internal/daemon/fanout.go:341-360 | Once closed it stays closed whatever is called after it: nothing is listed, nobody is made, and every subscriber is stopped or about to be. |
| FanoutTable.CloseReturns | internal/daemon/fanout.go:341-360 | A close waits for a worker for no more than four steps of it and of the calls that owe it one, whatever other calls come between, and while it waits one of these steps is there to take. |
| FanoutTable.LeftIsSpent | internal/daemon/fanout.go:235-360 | What is left to do for a subscriber that is listed no more is used up by its own steps, one each, and by nothing else. |
| FanoutTable.QueueBelongsToItsEndpoint | internal/daemon/fanout.go:245-254 | A registration keeps its queue if and only if endpoint, owner and rank are unchanged; its secret is the new one either way, and nobody else moves. |
| ActionLocks.ActionLock.Enter | internal/daemon/run.go:1048-1058 | The first critical section hands out the mutex the table holds for the id, making it if there is none, and counts the caller. |
| ActionLocks.ActionLock.Leave | internal/daemon/run.go:1059-1068 | The second counts the caller out and drops the entry with the last one. |
| ActionLocks.MutualExclusion | internal/daemon/run.go:1035-1069 | In every interleaving at most one thread is in the critical section of an id. |
| ActionLocks.TableIsExact | internal/daemon/run.go:1035-1069 | Everybody between entry and exit for an id shares one mutex, waits is their number, and both maps hold an id if and only if somebody uses it. |
| ActionLocks.NoLostLock | internal/daemon/run.go:1048-1069 | A queued thread can go on, or the one inside can: no mutex is lost with its entry. |
| TickRace.DeleteIsFinal | internal/daemon/processes.go:540-572 | Once an unregister has deleted the row, no tick of that id starts a container or writes the row back, in any continuation, until the id is registered again. |
| TickRace.TicksResurrectNothing | internal/daemon/schedule.go:541-586 | However a row went, no tick ever brings it back: the write of a run updates and never inserts. |
| TickRace.StartsOnlyRegistered | internal/daemon/schedule.go:541-586 | Where every delete takes the action lock, each container a tick starts belongs to a Process registered at that moment. |
| TickRace.UnlockedDeleteIsFinal | internal/daemon/removal.go:164-172 | A delete that does not take the lock is final, in every continuation without a new registration, if and only if no tick of that id stands between the write of its hash and its start. |
| TickRace.UnlockedDeleteCanBeOutrun | internal/daemon/removal.go:166-166 | And there can be such a tick: a delete that does not take the lock, as that of a member's removal, can leave one that starts all the same. |
| TickRace.RevokeLeavesLaterHashes | internal/daemon/schedule.go:591-600 | Ending a run clears its own row only, only where the hash in it is the one that run was given, and only where the store takes it. |
| TickRace.EndedTokenIsDead | internal/daemon/schedule.go:591-600 | The hash of a run that has ended is in a row if and only if revoking it failed, its row is there and nothing was minted for that id since. |
| TickRace.StartedRunRevokes | internal/daemon/schedule.go:569-584 | In every run, a tick that started its container and is over has tried to revoke its token, and is marked by how that was answered. |
| TickRace.OverMeansDead | internal/daemon/schedule.go:580-600 | Where no revocation of a run failed, the token of a tick that is over is in no row. |
| TickRace.ATickRunsItsCourse | internal/daemon/schedule.go:541-586 | From any reachable state, a tick that has the lock and its row, with no call failing, stores a hash never minted before, starts its container, gives the lock back and revokes that hash. |
| TickRace.TokenAnswersExactly | internal/daemon/schedule.go:591-668 | In every reachable state a hash is in a row if and only if its id is registered, it is the last one minted for it, and its run did not revoke it. |
| TickRace.AbandonedTokenAnswers | internal/daemon/schedule.go:569-579 | The hash of a run that was given up after it was stored is revoked by nobody: it is in a row as long as its row is there and nothing else was minted. |
| CronSearch.Next | internal/manifest/cron.go:232-259 | The search that skips whole months, days and hours answers exactly what looking at every minute would: the first that the expression matches, or none where none is within the years it searches. |
| CronSearch.SearchFinds | internal/manifest/cron.go:225-259 | Looking minute by minute finds the first tick at or after a moment and before a limit, or none exactly where there is none. |
| CronSearch.AtCounts | internal/manifest/cron.go:232-259 | The calendar is a count of minutes: going on minute by minute over months, years and leap years is counting by the closed formula the weekday is read from. |
| CronSearch.OrderIsTheCount | internal/manifest/cron.go:232-259 | And the order of the calendar is the order of that count, over any two moments. |
| CronSearch.TickAfterIsFirst | internal/manifest/cron.go:232-259 | Over counted minutes: no tick comes before the one that is found, and where none is found every tick is past the horizon. |
| CronSearch.DaySkips | internal/manifest/cron.go:244-277 | Skipping to the next day misses nothing: no minute of a date that does not match does. |
| CronSearch.EitherDayWillDo | internal/manifest/cron.go:261-277 | Of two restricted day fields either will do: the days are those of the expression with the one left open and those with the other; with one open the other decides. |
| CronSearch.WeekdayGoesOn | internal/manifest/cron.go:264-266 | The weekday goes on by one with every day of the calendar. |
| CronSearch.WeekdayIsKnown | internal/manifest/cron.go:264-266 | And it is the real one: the first of 1970 is a Thursday, the leap day of 2000 a Tuesday. |
| CronSearch.FindsNothing | internal/manifest/cron.go:225-277 | For every expression the parser accepts the search finds nothing if and only if no date it names is in a common year and, where leap days are, none at its time lies within the horizon. |
| CronSearch.HorizonMisses | internal/manifest/cron.go:26-30 | It finds nothing although a tick comes later if and only if the expression names leap days alone and none at its time lies within the horizon. |
| CronSearch.OnlyACenturyIsMissed | internal/manifest/cron.go:26-30 | No leap day lies within the horizon only where one of the next four years is a century that is no leap year. |
| CronSearch.HorizonMissesALeapDay | internal/manifest/cron.go:26-30 | A concrete one: asked in March 2096 for 29 February, it finds none, though 2104 has one. |
| Scheduler.NextIsFirstAfter | internal/manifest/cron.go:232-259 | The tick the scheduler works with is the search's: no tick after a time comes before it, and where it has none every tick is past the search's horizon. |
| Scheduler.NextIsATick | internal/manifest/cron.go:225-259 | And what it has is a tick: the beginning of a minute the expression matches. |
| Scheduler.FindNext | internal/daemon/schedule.go:253-259 | The search over the calendar, asked for the minute of a time, answers that tick. |
| Scheduler.Scheduler.Track | internal/daemon/schedule.go:238-283 | A job keeps its mark, its last run and, where its expression is unchanged, its tick; only a job that comes or goes wakes the loop. |
| Scheduler.TrackTakesTheRegistration | internal/daemon/schedule.go:262-283 | A job held already takes the new owner and container, and a new job is not running and is due at the search's answer; nobody else moves. |
| Scheduler.IsAJobExactly | internal/daemon/schedule.go:238-261 | A registration is tracked if and only if it has an expression that names a date of a common year, or a leap day within the horizon. |
| Scheduler.Scheduler.Untrack | internal/daemon/schedule.go:287-295 | The job leaves the table, its counters do not, and the loop is woken if there was one. |
| Scheduler.Scheduler.Ordered | internal/daemon/schedule.go:347-359 | The keys come out sorted by due time and then id, each once. |
| Scheduler.OrderIsUnique | internal/daemon/schedule.go:347-359 | There is one such order, so nothing depends on how the map hands its keys over. |
| Scheduler.OrderIsByTickAndId | internal/daemon/schedule.go:347-359 | And it is due longest first, and the lower id first of two due at the same moment. |
| Scheduler.Scheduler.Due | internal/daemon/schedule.go:311-341 | What due answers and leaves behind is one greedy pass in that order. |
| Scheduler.Scheduler.Finish | internal/daemon/schedule.go:382-406 | The run comes off the counters it was charged to, whether or not its job is still registered. |
| Scheduler.LastRunIsTheLastEnded | internal/daemon/schedule.go:382-406 | Over any run the last run told of a job is the last one that ended while it was held, since it was registered. |
| Scheduler.NextOnlyAdvances | internal/daemon/schedule.go:366-375 | A tick that is taken moves strictly past now; one that is not is left alone. |
| Scheduler.DueSplitsExactly | internal/daemon/schedule.go:311-341 | Every due job is run or skipped, exactly once, as running exactly where it was, and nothing else is. |
| Scheduler.GreedyInOrder | internal/daemon/schedule.go:311-341 | A cap that is full for one job stays full for every later job of that member in the same pass. |
| Scheduler.RunExactlyBelowTheCaps | internal/daemon/schedule.go:328-337 | A due job that is not marked is run if and only if, when its turn comes, the runs of the host and those of its member are both below their caps, and is skipped as busy otherwise. |
| Scheduler.BusyMeansACapIsFull | internal/daemon/schedule.go:328-337 | A tick is skipped as busy only where the host or its member is at the cap once the pass is over. |
| Scheduler.PassCounts | internal/daemon/schedule.go:311-341 | The counters grow by exactly what a pass starts, and stay within both caps. |
| Scheduler.WaitIsNearestTick | internal/daemon/schedule.go:311-341 | The wait is positive and is the time to the nearest tick, or ScheduleIdleWait. |
| Scheduler.TakenToATick | internal/daemon/schedule.go:366-375 | A job that is taken is put at a tick of its expression, but exactly where the expression names leap days alone and none lies within the horizon; then it is put a day out, which is no tick. |
| Scheduler.DueAtATick | internal/daemon/schedule.go:238-375 | In every reachable state the moment a job is next due at is a tick of its expression if and only if its last taking, since it was registered or its expression changed, was not one where the search gives up. |
| Scheduler.RunsAreAtTicks | internal/daemon/schedule.go:311-375 | A run is granted for a moment that has come, and that is a tick if and only if the same holds. |
| Scheduler.GivenUpRunsADayOn | internal/daemon/schedule.go:361-375 | Whatever the expression: taken where the search gives up, a job is started a day on, at no tick. |
| Scheduler.ALeapDayJobRunsOffItsTicks | internal/daemon/schedule.go:361-375 | And there is such a run: a job for 29 February, registered in 2096, is started on a day in March. |
| Scheduler.CountersAreTheRunsInFlight | internal/daemon/schedule.go:311-406 | Over any interleaving of track, untrack, due and finished, running and every perOwner entry equal the runs in flight and never pass their caps. |
| Scheduler.RunsInFlightOfAJob | internal/daemon/schedule.go:287-406 | Over any interleaving the runs of a job in flight are the one its mark stands for and those it was dropped under that did not end since; so at most one, exactly where there is none of those, or one and no mark. |
| Scheduler.SecondRunStarts | internal/daemon/schedule.go:311-406 | A run starts beside another of its job if and only if a pass grants it while a run it was dropped under still goes. |
| Scheduler.OnlyHasteIsSleptPast | internal/daemon/schedule.go:238-283 | A loop that will look again before every tick, with nothing to wake it, comes to sleep past one, by any call, if and only if that call registers a job held already with another expression whose next tick is before the loop looks. |
| Scheduler.SleepsPastExactlyHastened | internal/daemon/schedule.go:444-467 | In every reachable state a loop with nothing to wake it sleeps past a tick of a job if and only if the last change of its expression since the loop looked named one before the deadline; and never longer than ScheduleIdleWait after that look. |
| Scheduler.MovedTickIsSleptPast | internal/daemon/schedule.go:262-272 | And there is such a run: a job registered again with an earlier expression is slept past. |
| Prober.Every | internal/daemon/health.go:382-394 | An interval a manifest spells and that is positive is never under the minimum nor under what was asked for; any other is the default, and that alone can be under the minimum, where the minimum is above it. |
| Prober.Prober.Track | internal/daemon/health.go:183-215 | A target held already keeps its due time, its mark and its reading; only one that comes or goes wakes the loop. |
| Prober.TrackTakesTheDeclaration | internal/daemon/health.go:183-215 | A target held already takes the new endpoint, path and interval, and a new one is due at once; nobody else moves. |
| Prober.Prober.Untrack | internal/daemon/health.go:234-242 | The target leaves, and the loop is woken if there was one. |
| Prober.Prober.Due | internal/daemon/health.go:399-419 | Exactly the due targets are answered, each once, marked and moved on, with the wait to the nearest due time. |
| Prober.LookOverAll | internal/daemon/health.go:399-419 | The pass over the map in any order is that sweep. |
| Prober.Prober.Finish | internal/daemon/health.go:427-447 | An answer unmarks its target, and counts only where the declaration it was sent under still stands. |
| Prober.AnswerIsTheReading | internal/daemon/health.go:427-447 | An answer that counts is the reading, at its time and as healthy as it was; nothing else of the table changes but the mark. |
| Prober.ReadingIsTheLast | internal/daemon/health.go:183-447 | Over any run what is known of a target is the last answer that came under the declaration its target had then, through every registration, pass and other answer. |
| Prober.NeverSleepsPastADueProbe | internal/daemon/health.go:484-512 | In every reachable state with a due target not in flight, a wake-up is pending or about to be sent, or the loop is awake, or its timer has run out. |
| Prober.RequestsInFlight | internal/daemon/health.go:234-447 | The requests about a target in flight are the one its mark stands for and those it was dropped under that were not answered since; so at most one, exactly where there is none of those, or one and no mark. |
| Prober.SecondRequestIsSent | internal/daemon/health.go:399-447 | A request is sent beside another of its target if and only if a pass finds it due while one it was dropped under is on its way. |
| Prober.RequestsAreSpaced | internal/daemon/health.go:399-419 | Two requests to one target are at least the interval in force at the first apart. |
| Prober.LookSendsExactly | internal/daemon/health.go:399-419 | A pass sends one request about every target that is not in flight and whose time has come, and no other. |
| Prober.DueAgainExactly | internal/daemon/health.go:399-419 | A target that was sent a request is due again exactly the interval in force then after it. |
| Prober.RetrackingCanDouble | internal/daemon/health.go:183-242 | Dropped and registered again under a request, a Process has two in flight. |
| Prober.ARegistrationCanDouble | internal/daemon/health.go:427-447 | Even one registration can have two: the answer to a request from before it unmarks it, and the next pass sends another. |
| Runtime.SoundAfterStarted | internal/daemon/mounts.go:106-135 | A start keeps the log sound if and only if it has no mounts or its own prepared namespace was verified before. |
| Mounts.VerifyConfig | internal/daemon/mounts.go:152-190 | A configuration is accepted if and only if there is a process to read through and every validated target is reported with its source and mode, readable, and holds the validated device and inode. |
| Mounts.SwapIsRefused | internal/daemon/mounts.go:177-188 | Another folder at a target, or none, or no process to read it through, is refused whatever the path is called. |
| Mounts.UntouchedIsAccepted | internal/daemon/mounts.go:152-190 | And nobody is refused for nothing: mounts reported as they were asked for, on the folders that were validated, are accepted. |
| Mounts.LaterMountShadows | internal/daemon/mounts.go:160-176 | The last mount reported at a target decides: a right one under a wrong one is refused. |
| Mounts.PrepareAndVerifyIn | internal/daemon/mounts.go:223-237 | Accepted only prepared, with what was validated in the very namespace it is left in, and that is what the log says. |
| Mounts.TearDownAfterSwap | internal/daemon/mounts.go:211-216 | The container is gone, or this very removal failed and was logged, and that counted. |
| Mounts.PrepareAndVerify | internal/daemon/mounts.go:248-255 | A container that does not check out has run nothing and is gone, unless this removal of it failed; no other is touched. It is accepted if and only if nothing stood against it. |
| Mounts.StartVerified | internal/daemon/restore.go:562-565 | A verified container runs in the namespace it was verified in; or its start erred, and it is gone unless this removal of it failed, whether it had come up or not. It runs if and only if nothing stood against it. |
| Mounts.CreateVerified | internal/daemon/restore.go:554-567 | The four steps: up in the namespace that was verified, with exactly those two entries in the log; or nothing else touched and nothing of that name left, unless this removal failed or a create that erred made it; nothing ran but by a start that erred, and that where it was verified. It is up if and only if the name was free and nothing stood against it. |
| Start.StartProcess | internal/daemon/run.go:251-403 | A session's start: the container runs, verified, with the token whose hash is stored; or at most this container's remains were touched, and nothing ran but by a start that erred and was given up. It is started if and only if its mounts resolve, everything else was in order, its name was free and nothing stood against it. |
| Start.StartRun | internal/daemon/schedule.go:607-668 | A tick's start, under the row it writes before making anything: it never adds a row, runs only what it verified, gives up what it could not start, and says gone only where the row is. Where nothing stands against it, it begins if and only if everything was in order and the row is there. |
| Pods.StartOrder | internal/daemon/pods.go:358-371 | The answer is the units without the face and then the face, each part in declared order. |
| Pods.StartOrderPutsTheFaceLast | internal/daemon/pods.go:358-371 | The start order is a permutation of the units, with no face before another unit and both kinds in the order declared. |
| Pods.TearDownPod | internal/daemon/pods.go:445-453 | No pod of that name and no container of it is left, unless this removal failed; nothing outside it is touched. |
| Pods.RaisePod | internal/daemon/pods.go:131-178 | All or nothing: every unit up and verified, each before the first was started and each in its turn, or no trace of the pod unless its own teardown failed; nothing outside it is touched. Where nothing stands against it, it is up if and only if pod and names were free. |
| Pods.ChecksThenStarts | internal/daemon/pods.go:145-178 | Verifying every unit and then starting them is a log in which nothing ran before every unit with mounts was verified. |
| Pods.StartPod | internal/daemon/pods.go:80-188 | A session's start of a pod: every unit runs with the token whose hash is stored, or the runtime was not touched, or no trace of the pod is left unless this call's teardown failed. Where nothing stands against it, it runs if and only if its units resolve, its name proves and pod and names were free. |
| Pods.PodRunning | internal/daemon/pods.go:725-732 | True if and only if there are units and each of them runs and has a pid. |
| Pods.RemakePod | internal/daemon/pods.go:741-855 | A pod made again is whole with its new token, whose hash is stored unless the store missed this write; or untouched, as far as a removal that erred left it, or gone unless this teardown failed, with every stored hash as it was. Where nothing stands against it, it is made if and only if its command lines could be written and no name is taken outside of it. |
| Pods.RestorePod | internal/daemon/pods.go:644-720 | Missing if and only if the runtime has no such pod; running only where every unit stands as validated and nothing was touched; placed only as a whole; failed with the pod untouched, as far as a removal that erred left it, or gone unless this teardown failed. Where nothing stands against it, it comes to exactly what the host calls for (`Pods.PodDue`). |
| Restore.RestoreMounted | internal/daemon/restore.go:638-692 | Handed back unhandled if and only if there is no such container; running ones are read in place, prepared ones resumed in the namespace just read, all others made again; a failure leaves every other container alone and ran nothing but by a start that erred. Where nothing stands against it, it comes to exactly what the container there calls for (`Restore.MountedDue`): one that runs and checks out is running, one prepared and right is resumed. |
| Restore.ResumePrepared | internal/daemon/restore.go:666-684 | A prepared container runs in the namespace that was read and found right, or it is gone unless this removal failed, having run only if its start erred. It runs if and only if what was read is accepted and nothing stood against it. |
| Restore.RemakeMounted | internal/daemon/restore.go:699-767 | The container runs verified with its new token, whose hash is stored unless the store missed this write; or the stored hash is unchanged and nothing ran but by a start that erred. Where nothing stands against it, it is made if and only if its command line could be written. |
| Restore.PuttingBackUndoes | internal/daemon/restore.go:512-529 | Setting a container aside, failing to make another of its name and putting the name back is no change at all. |
| Restore.HealCeiling | internal/daemon/restore.go:416-547 | A transaction: an error leaves every stored hash and the original container, under its name unless this renaming failed or took effect as it erred; success leaves the new one running, verified, with the token whose hash is stored unless the store missed this write, and nothing aside unless this removal failed. Where nothing stands against it, it heals if and only if there is such a container, everything was in order and the name aside is free. |
| RestoreAll.StartByName | internal/daemon/restore.go:290-358 | What starting by name came to means what it says: started, already running, gone and dropped, healed, or failed with every stored hash unchanged and the container there, under its name or aside as a failed heal leaves it; and it is exactly the one due where nothing stood against it, or its start alone did. |
| RestoreAll.RestoreSingle | internal/daemon/restore.go:223-358 | Every outcome of one container means what it says of the host before and after this very step, through the mounted, plain and heal branches, a failed heal's original container included. Where nothing stands against it, it is exactly the one due; and where its start by name alone was refused, and not for want of time, it is healed if and only if that can be. |
| RestoreAll.RestoreComposed | internal/daemon/restore.go:204-217 | And so does every outcome of one pod, whatever failed before it; a missing one is unregistered unless the store missed this write. |
| RestoreAll.RestoreOwner | internal/daemon/restore.go:180-365 | One member's counts are the tally of outcomes that each mean what they say, step after step; a member that cannot be looked up fails them all and touches nothing. |
| RestoreAll.SortThem | internal/daemon/restore.go:96-141 | Kit, legacy and job registrations are counted as what they are, only legacy rows go and all of them do, but for no more than the writes the store missed here, and the rest is grouped by owner in listed order. |
| RestoreAll.BroughtBackExactly | internal/daemon/restore.go:96-141 | What is put by owner is exactly the registrations of that owner that name a container, are no job, no kit's and no removal's. |
| RestoreAll.SortsMean | internal/daemon/restore.go:96-141 | The first pass sorts each registration by its own fields, the first of owner, kit, name and job that decides. |
| RestoreAll.RestoreHost | internal/daemon/restore.go:71-177 | The whole restore is one step per remaining registration, each counted for what it came to; told not to, or unable to read the store, it does nothing. |
| RestoreAll.UndisturbedRestoreIsDue | internal/daemon/restore.go:71-365 | In a restore that nothing stands against, every registration comes to exactly what the host just before it calls for. |
| RestoreAll.EveryRegistrationCountedOnce | internal/daemon/restore.go:96-177 | Started + Missing + Failed + Legacy + Kit + Scheduled is the number of registrations not left to a removal, and Running + Healed is at most Started; and each of these counts is the number of registrations that came to it. |
| RestoreAll.BroughtBackStays | internal/daemon/restore.go:203-365 | A container brought back is as it was brought back when the restore ends, unless a later registration names it. |
| RestoreAll.TallyConcat | internal/daemon/restore.go:155-163 | Adding the owners' counts up is counting all their outcomes. |
| ReResolvers.ReResolver.Begin | internal/daemon/proxy.go:186-210 | The opening critical section waits for a call that is going, takes an answer that still stands, or begins a call. |
| ReResolvers.ReResolver.Publish | internal/daemon/proxy.go:214-217 | The answer stands for ReResolveWindow from the caller's own time, wherever its entry has gone since. |
| ReResolvers.ReResolver.After | internal/daemon/proxy.go:194-200 | A waiter reads the table again, and no where there is nothing in it. |
| ReResolvers.RunKeepsInv | internal/daemon/proxy.go:185-236 | In every interleaving the entry of an id is its last call since it was forgotten, calls are apart, and every channel not closed has its closer on the way. |
| ReResolvers.CallsNeverOverlap | internal/daemon/proxy.go:185-236 | Between forgets of an id, its calls never overlap and begin at least a window apart. |
| ReResolvers.YesWasSaid | internal/daemon/proxy.go:185-220 | Yes is returned only where some call for that id was told yes. |
| ReResolvers.FreshAnswerIsTheVerdict | internal/daemon/proxy.go:185-208 | An answer is taken exactly while it stands, and it is what the last call since the last forget was told. |
| ReResolvers.WaiterHearsItsCall | internal/daemon/proxy.go:188-201 | A waiter is given the verdict it waited for as long as its entry was not superseded. |
| ReResolvers.WaiterHearsTheEntry | internal/daemon/proxy.go:188-201 | In every reachable state a waiter whose call was told yes says no if and only if the entry is gone, or is another call that is still going or was told no; and one whose call was told no says yes if and only if the entry is another call that was told yes. |
| ReResolvers.UnforgottenEntryIsThere | internal/daemon/proxy.go:185-236 | Where nothing was forgotten since its call was begun, the entry a waiter reads is that call or a later one. |
| ReResolvers.SupersededWaiterHearsNo | internal/daemon/proxy.go:193-199 | A concrete one: a waiter let through after a forget says no to a call that was told yes. |
| ReResolvers.WaitersAreLetThrough | internal/daemon/proxy.go:188-218 | Nobody waits for ever: the call is over, or its caller is on its way. |
| RateLimiters.RateLimiter.Allow | internal/daemon/internal.go:220-238 | A request is granted where it opens a window or its peer's stands unspent, and is counted. |
| RateLimiters.RateLimiter.Prune | internal/daemon/internal.go:243-249 | Exactly the windows that have passed are dropped. |
| RateLimiters.PruningChangesNoAnswer | internal/daemon/internal.go:220-249 | Under a clock that does not go back, the limiter answers as one that never prunes. |
| RateLimiters.RefusedExactlyWhenSpent | internal/daemon/internal.go:220-238 | A request is refused if and only if its peer's window stands and granted its limit, counted over the calls themselves; so no window grants more. |
| RateLimiters.AnyStretchIsBounded | internal/daemon/internal.go:220-249 | In any half-open interval as long as a window, wherever it begins, a peer is granted at most twice the limit less one, a limit under one counting as one. |
| RateLimiters.TheBoundIsReached | internal/daemon/internal.go:220-238 | That bound is reached for every limit and every window of two moments or more, so the limit itself does not hold over every interval. |
| SessionRegistries.McpRegistry.Add | internal/daemon/mcp.go:133-142 | A session takes a slot where there is one, with its credential, and else nothing changes. |
| SessionRegistries.McpRegistry.CallerIs | internal/daemon/mcp.go:146-160 | A credential names its Process unless it is empty, unknown or past its grace. |
| SessionRegistries.McpRegistry.Expire | internal/daemon/mcp.go:165-173 | Exactly the credentials past their grace are forgotten. |
| SessionRegistries.McpRegistry.Drop | internal/daemon/mcp.go:185-205 | The session leaves its Process's list, the list the map where it is the last, and its credential starts its grace once. |
| SessionRegistries.McpSession.Claim | internal/daemon/mcp.go:295-301 | Of all who end a session, only the first goes on. |
| SessionRegistries.SlotsAreExact | internal/daemon/mcp.go:133-205 | In every run a Process's list is the sessions it was given and has not lost, in order, never more than the cap, and is kept if and only if it is not empty. |
| SessionRegistries.RefusedExactlyWhenFull | internal/daemon/mcp.go:133-142 | In every reachable state a session is refused if and only if its Process has the cap of those it was given and has not lost; one that is not is at the end of the list, with its credential. |
| SessionRegistries.GraceStartsOnce | internal/daemon/mcp.go:185-205 | Dropping a session again does not put its grace off. |
| SessionRegistries.EndedOnce | internal/daemon/mcp.go:295-326 | However many end it, a session's channel is closed once at most and its slot given back once at most. |
| SessionRegistries.EndedGoesOn | internal/daemon/mcp.go:295-326 | And until an ended session has given its slot back, one ender is on its way with its next step to take. |
| SessionRegistries.CredentialNamesItsProcess | internal/daemon/mcp.go:144-205 | A credential names its Process from the moment its session has a slot to the end of its grace, and nothing before or after. |
| SessionRegistries.ExpireChangesNoAnswer | internal/daemon/mcp.go:162-173 | A registry that never forgot would answer every question the same, under a clock that does not go back. |
| Removal.MemberHost.RemoveMember | internal/daemon/removal.go:121-232 | Every step is tried whatever failed before it, what it did not do is among the failures, and the record, where the store takes this attempt's, is removed exactly where there are none and else names the first; and where no call was refused nothing is a failure, and it is removed. |
| Removal.MemberHost.MarkRemoving | internal/daemon/removal.go:62-70 | Of several calls for one member only the first starts a job. |
| Removal.MemberHost.RemoveContainers | internal/daemon/removal.go:237-286 | Every registration's own container is gone, or a failure was noted, or there is no account to remove it as. |
| Removal.MemberHost.RemoveAccount | internal/daemon/removal.go:200-214 | The account goes before its home, and a home whose account is gone is still archived; what did not go was noted. |
| Removal.RunKeepsInv | internal/daemon/removal.go:121-305 | At every point of every run, with crashes and retries anywhere, what an attempt is past is done or known to have failed. |
| Removal.AccountGoesLast | internal/daemon/removal.go:121-214 | A missing account means every earlier step is done, which of the containers is each registration's own gone, or known to have failed. |
| Removal.RecordIsExact | internal/daemon/removal.go:126-132 | The record is removed exactly where no step of the attempt failed, and else names the first that did. |
| Removal.RemovedMeansGone | internal/daemon/removal.go:121-232 | A member recorded as removed has nothing left, whatever failed and however often the daemon stopped, but for containers that no deletion of the account took: those that are no registration's own, and own ones only where the step for them failed in an attempt before. |
| Removal.RemovedLeavesExactly | internal/daemon/removal.go:121-286 | Over every run, an attempt recorded as removed leaves a container if and only if it was there when the attempt began, was no registration's own then or the account was gone then, and deleting the account did not take it. |
| Removal.HeldIsLeftExactly | internal/daemon/removal.go:237-286 | So of what a registration held when the attempt began, the units of a pod included, exactly that is left which is no registration's own, or all of it where the account was gone, but for what deleting the account took. |
| Removal.OthersAreLeft | internal/daemon/removal.go:254-279 | At any point of any run, with any failures, a container that is no registration's own is there if and only if it was and no deletion of the account took it. |
| Removal.LetAloneLeaves | internal/daemon/removal.go:121-286 | And each of them is left: from wherever an attempt begins, let alone it ends recorded as removed with exactly those containers there, or with none where there was an account and removing all containers with it did not fail. |
| Removal.CrashesLoseNothing | internal/daemon/removal.go:121-232 | With no step failing, stopping anywhere loses nothing: removed means every step done, and a container left if and only if it is no registration's own and no deletion of the account took it; and a missing account means every earlier step is done. |
| Removal.AllTakenNothingIsLeft | internal/sysusers/host.go:196-219 | Where removing all containers with the account never failed, removed means that no container is left at all, whatever else failed. |
| Removal.ResumedJobFinishes | internal/daemon/removal.go:305-319 | With no step failing, from wherever the daemon stops the job taken up again ends, recorded as removed with every step done; what is left is exactly the containers that are no registration's own and that no deletion of the account took, and none where that never failed. |
| Removal.AForgottenContainerStays | internal/daemon/removal.go:163-172 | The first way there: a container whose removal failed is forgotten with its registration, and the attempt after it records the member as removed with that container there. |
| Removal.AContainerOfNobodyStays | internal/daemon/removal.go:244-252 | The second: where the registration stayed too but the account went, the attempt after it skips the container without a fault and records the member as removed. |
| Removal.APodsUnitStays | internal/daemon/removal.go:254-279 | The third: with no step failing and nothing stopped, the first attempt records the member as removed with any container of a pod that is not its face's there, where deleting the account did not take it. |
| Surfaces.NamespaceIsBeforeTheFirst | internal/bridge/bridge.go:250-256 | A name is in a family exactly where it is the family's name without an underscore, an underscore, and anything. |
| Surfaces.ReservedByItsPackage | internal/bridge/bridge.go:250-256 | A tool's name is in a family if and only if its package is a family or has one before its first underscore: every other package's tools may join. |
| Surfaces.Bridge.Attach | internal/bridge/bridge.go:105-109 | A bridge is given its server and nothing else of it changes: what is published stays one and the same with whose each name is. |
| Surfaces.Bridge.Drop | internal/bridge/bridge.go:282-297 | A Process leaves with exactly the names it owns; the server loses those and no built-in, a manifest that names one twice included. |
| Surfaces.Bridge.Add | internal/bridge/bridge.go:177-248 | Afterwards a Process owns exactly the names its manifest declares that are usable, in no family and nobody else's; nobody else loses one; and it is told exactly what was taken or unusable, or why nothing changed. |
| Surfaces.Bridge.Remove | internal/bridge/bridge.go:260-267 | The same as leaving. |
| Surfaces.Bridge.Owner | internal/bridge/bridge.go:303-314 | A name is answered for exactly where a Process owns it, with its Package, and never for a built-in. |
| Surfaces.DroppingAgrees | internal/bridge/bridge.go:282-297 | Whose each name is and what each Process has stay one and the same when a Process leaves. |
| Surfaces.PublishingAgrees | internal/bridge/bridge.go:205-232 | And when one publishes. |
| FetchLocks.FetchLock.Take | internal/daemon/images.go:324-345 | A copy is refused as under way, refused as one too many, or claimed and counted. |
| FetchLocks.FetchLock.Release | internal/daemon/images.go:336-345 | The claim and its count go, and the counter with the last one. |
| FetchLocks.KeysAreApart | internal/daemon/images.go:325-325 | No two claims share a key where member names carry no space. |
| FetchLocks.CountsAreExact | internal/daemon/images.go:324-345 | A member's count is the copies they have under way, within the cap, and nobody with none is kept. |
| FetchLocks.AnswersAreRight | internal/daemon/images.go:324-345 | A copy is refused as under way exactly where it is, and as one too many exactly where it would be. |
| FetchLocks.SpacesWouldCollide | internal/daemon/images.go:325-325 | A member name with a space would be refused another member's copy. |
| ConnectionBudget.AddressCounter.Take | internal/daemon/budget.go:58-69 | One is reserved where the address is under its cap, or is not counted at all. |
| ConnectionBudget.AddressCounter.Release | internal/daemon/budget.go:72-83 | One is given back, and the entry with the last. |
| ConnectionBudget.ProxyListener.Accept | internal/daemon/budget.go:119-145 | The first connection whose address is under its cap is answered, every one before it turned away, or the first error; the slot is kept only by a connection. |
| ConnectionBudget.CountedConn.Close | internal/daemon/budget.go:136-157 | A connection gives its slot and its place back the first time it is closed, and nothing after that. |
| ConnectionBudget.NothingIsLost | internal/daemon/budget.go:119-157 | In every run free slots, accepts and connections add up to the total, and an address holds exactly what it has open, within its cap. |
| ConnectionBudget.TurnedAwayExactlyAtTheCap | internal/daemon/budget.go:58-145 | In every reachable state a connection is turned away if and only if its address is counted and has the cap of connections open. |
| ConnectionBudget.GivingBackNeverBlocks | internal/daemon/budget.go:122-141 | Giving a slot back never waits for room. |

## Left out

- Podman, git, the cgroup files, SQLite, sockets and the file system are foreign calls: the model has their outcomes, failures included, and not their inside. A runtime that says it has no such container or pod has none; only the daemon makes, starts and removes the containers of a Process.
- A container's name in the model stands for its member's and its own, because a rootless runtime keeps one store per member; a token's hash stands for the token; a token, a credential and a random id are fresh.
- The last steps of `startProcess` and `startRun` are `createVerifiedContainer` spelled out in place, and the steps `startPod` and `remakePod` share are one method, `Pods.RaisePod`; where the two differ is when environment files are written, which the model allows at either time.
- Restore brings owners back one after the other here, and in parallel in the source: different members' containers are in different stores.
- What a unit resolves to, whether a Process has a ceiling by now, whether a secret or a hostname still proves and whether a command line can be written are inputs; `podCeiling`, `unitOptions`, `runOptions`, `labelsOf` and the environment files are not modelled.
- Parsing an expression is not modelled: what `CronSearch.Parsed` says of one is what the parser ensures. Times are nanoseconds from the first of year 1 on, which is where the source's clock counts from.
- Process ids are numbers in `Scheduler.dfy`: they are canonical UUIDs, so comparing their spellings is comparing the numbers they spell.
- Deadlines are the time of a look plus its wait; drift of the wall clock is not modelled, and where a claim needs a clock that does not go back it says so.
- Prober.NeverSleepsPastADueProbe: is about targets not in flight, as the loop's own wait is; a target in flight is due again when its answer unmarks it, which wakes the loop.
- Removal.MemberHost.RemoveMember: walks the containers one after the other; `Removal.Run` allows any interleaving of their stops and removals.
- A removal of all of a member's containers that succeeds has taken every one of them in the model; the source takes those the runtime lists with the member's label. Where the host has no runtime to ask, it is one that failed.
- Starts and ticks that race a removal are not modelled: `isRemoving` is read outside the action lock.
- The subordinate id ranges and the runtime directory of an account go with it in the source; a failure there is the failure of the account step after its home moved.
- The children of MCP sessions, the index by session id, idle sweeping and tool publishing to a session are not modelled: what is proved is slots, credentials and the one ender.
- The slice that `drop` filters in place shares its backing array with the list before it; the model's list is a value, so that aliasing is not captured.
- The routing table (`track`, `dropPort`, `reload` of `proxy.go`), TLS, the ask endpoint and forwarding are not modelled: each is a map replaced under one lock, or a library's.
- Encoding and posting of exports, who may see a record, and the HTTP client of the fan out are not modelled.
- HTTP handlers, request decoding, problem texts, logs and metrics are not modelled.
- Users, secrets, approvals, backups, builds, the file store and the evaluation bench are not part of this model.
