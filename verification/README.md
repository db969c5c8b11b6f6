# Modigo runner: a Dafny model of its protocols

The runner executes students' code in containers. A WebSocket connection starts *runs* (a program, with a
time limit) and *shells* (no time limit), one at a time; a REST route executes a single program. All of
them share one counting semaphore, one container daemon and two process-wide tables: how many containers
each user is charged for, and which run containers of a user may be evicted. A limiter bounds the REST
route per key, and a lab gives a session a private network with target containers.

The interesting part of the program is concurrent. One connection is served by a sequential message loop
and, for each run or shell it ever started, by an output bridge, a timer and an exit waiter, all of which
outlive the message that started them. A generation number is meant to keep the leftovers of an old run
away from a new one, and slots and charges are handed from the message loop to the exit waiter.

## How it is modelled

- **One connection** (`Connection`) is an automaton. Every lock..unlock section of
  handler/websocket.go:474-730 and 841-988, and every effect between two sections, is one step of one
  actor: `HandlerNext` with `LaunchNext` for the loop, `BridgeNext`, `TimerNext` and `WaiterNext` for the
  goroutines of each generation. A step carries a *label* saying what it does to the rest of the process.
  Each job keeps the messages it sent, the containers it cancelled, closed or removed, and whether its own
  timer raised the timeout flag before or after its waiter read it; the program stores none of these.
- **The process** (`Runner`) is any number of connections and REST requests. `PoolNext` gives each label
  its meaning on the shared counter, daemon and tables; `SystemNext` interleaves the steps of all parties,
  with arrivals and with the reaper's removals. A `Behaviour` is a finite sequence of states from the
  empty process on. The theorems of `Guarantees` speak of every state of every behaviour;
  `Witnesses` builds particular ones.
- **The objects that the program updates in place** are classes: `SessionState`, `UserContainers`,
  `Semaphore` with its `Cond`, `Limiter` with its `KeyState`s, `Docker`, `LabManager`. Their methods have
  the source's branches and loops and are proved against the functions that the automata are made of
  (`Supersede`, `Retire`, `Decrement`, `Forget`, `Enter`, `Resume`, `Decide`, `Purged`, ...), so that
  what is proved of the automata is about those very sections.
- **The semaphore** (`Semaphores`) is also a monitor with an unbounded number of callers that sleep on the
  condition variable, have been woken, or hold a slot. `SlotCounter` shows that it is the counter of `Runner`.
- **The limiter** (`LimiterHistory`, `LimiterExact`) is run over arbitrary histories of calls and sweeps, under a
  clock that does not run backwards. **The REST route** (`Charges`) is an automaton per request, from the middleware's
  charge to the response, interleaved with the other requests and with the sweep over one limiter.
- **Labs** (`Labs`) have their own state machine: message loops, expiry goroutines, the reaper and any number
  of `StopLab` calls, one daemon call a step.
- **The file filter** (`Workspace`) is modelled down to Go's path functions.

`Fibers` counts pairs and injections; `ConnectionInv`, `Accounts` and `Histories` hold the invariant of a
connection, its slots, charges and containers, and what a step does to a job's history. `Reachability` joins
behaviours. `Verdicts`, `Deliveries` and `Timers` say what a run or shell is told and when it is killed, `Tracking`
which runs are on the eviction table, `Quiescing` that nothing gets stuck; `Admission`, `Tails` and `UserCap` state exact conditions for promises of
the source.

## Where the code keeps less than its comments say

- "Your newest action always wins" (handler/websocket.go:130-135): false. `NewestActionCanLose` is a run of
  the process with one connection and one live container whose fourth run is refused. A run stays evictable
  only until its handler returns, because `defer deleteUserRun` (line 583) fires then
  (`EvictableOnlyWhileLaunching`). `AdmittedExactly` says when a run message is admitted, as long as nobody
  else changes that user's tables between the seven lock sections of the admission; `EvictorCanLose` shows
  that this proviso matters, since another connection of the user can take the place just made.
- "The maximum concurrent containers a single user can have" (handler/websocket.go:98-99) is three if and only
  if the process has no more than three slots: `RunCapExactly` for a user's runs, `ContainerCapExactly` for
  runs and shells together. An evicted run is discounted twice, by the eviction (line 176) and by its own
  waiter (line 636), and shells are not charged at all. `UserRunsBounded` allows one live run above three for
  every eviction there has been; `RunsPileUp` and `ShellsAreNotCharged` reach any number the capacity admits.
- "Only send exit if this is still the current generation" (handler/websocket.go:643, 673): the check is made
  before the send, not during it. `StaleRunSendsLittle` bounds what can slip through, and `StaleFutureIsExact`
  says from which states it can: those in which a goroutine stands past the last check that could stop it.
  (The waiter's second check looks at the generation only, so that a cleared session does not stop it.) Files
  slip through only if they had been read before, because a stale job's container is gone (`StaleIsGone`).
  `StaleOutputIsPossible` and `StaleExitIsPossible` are instances.
- Not a comment, but unexpected: with a negative daily limit and a positive rate a refused request changes what
  `RemainingDaily` says; `RefusalsLeaveNoTraceExactly` says for which settings refusals leave no trace.
- The limiter's "sliding window" (ratelimit/limiter.go:20, 69) is a fixed window anchored at a request.
  `SlidingWindowExactly` says for which settings this makes no difference, midnight included, where the daily
  counter restarts and the window does not. `RateBound` is what holds always, and `RateBoundIsReached` that
  nothing better does.
- `StartLab` releases what it made when it fails, except the target container once that exists
  (executor/lab.go:139-151); the contract of `LabManager.StartLab` says so exactly.
- "Files inside hidden or build-artifact directories anywhere in the path" (executor/container.go:1204) are
  hidden unless a ".." follows such a directory, since `filepath.Dir` cleans the path first:
  `ShownFileIsClean` is the exact condition and `DotDotEscapes` an instance. The listing the program makes
  contains no "..".

## Model

| member | source | states |
|---|---|---|
| `Guarantees.CapacityHolds` | handler/websocket.go:504-578 | in every state of every behaviour each live execution container runs under an unreleased slot of its own, so live containers never outnumber the slots taken, and these never exceed a capacity that is not negative |
| `Guarantees.SlotsConserved` | handler/websocket.go:633-636 | the counter is the number of actors that hold an unreleased slot, and each party has released every slot it acquired exactly once, but for those it holds now, on every path |
| `Guarantees.UserCountsHold` | handler/websocket.go:534-554 | a user's count is between 0 and 3 and at most the user's outstanding runs; these are at most 3 plus the evictions; without evictions the count is exact; without outstanding runs the entry is absent, so nobody stays locked out |
| `Guarantees.UserRunsBounded` | handler/websocket.go:98-124 | a user's live runs number at most the outstanding ones, hence at most 3 plus the evictions there have been |
| `UserCap.RunCapExactly` | handler/websocket.go:98-124 | for every limit of three or more: no user ever has more live runs than that, in any behaviour, if and only if the capacity is at most that |
| `UserCap.ContainerCapExactly` | handler/websocket.go:98-99 | for every limit: no user ever has more live containers, runs and shells, than that if and only if the capacity is at most that |
| `Guarantees.EvictableOnlyWhileLaunching` | handler/websocket.go:580-583 | a container in `userRuns` is the current run of a connection of that user whose handler has not returned from launching it |
| `Admission.AdmittedExactly` | handler/websocket.go:495-501 | in every behaviour, a run message whose user's tables nobody else changes meanwhile is admitted if and only if at the first attempt the user is below the cap or has a tracked run to evict |
| `Guarantees.QuiescenceIsClean` | handler/websocket.go:290-307 | when every connection has closed and every waiter and request is done, no slot is taken, no container lives and both per-user tables are empty, whatever the interleaving was |
| `Quiescing.TheProcessCanComeToRest` | handler/websocket.go:290-316 | from every state of every behaviour the process can go on to a state in which every connection has closed, every waiter and request is done, no slot is taken, no container lives and both per-user tables are empty |
| `Quiescing.EveryHandlerCanReturn` | handler/websocket.go:474-730 | from every state of every behaviour a message loop that is at work can come back to its next message, without a step of any other party |
| `Guarantees.GenerationsAreFenced` | handler/websocket.go:719-728 | the session is the container created for the current generation, containers belong to one job each, and whatever a job's timer or waiter cancelled, closed or removed was that job's own container |
| `Guarantees.NamesAlways` | executor/container.go:334-340 | no two jobs or requests of the process ever share a container |
| `Guarantees.MessagesInOrder` | handler/websocket.go:585-716 | a run's messages are a prefix of started, output*, optional files, exit, with one exit at most and nothing after it; a shell sends neither files nor exit |
| `Guarantees.StaleTail` | handler/websocket.go:597-608 | once a job is superseded or its session cleared it stays so, and all it sends from then on was already decided at that moment |
| `Guarantees.StaleRunSendsLittle` | handler/websocket.go:674-716 | from then on a run sends one more output chunk at most, or the rest of its files and exit at most, never both |
| `Guarantees.StaleShellSendsLittle` | handler/websocket.go:893-944 | from then on a shell sends one more output chunk and one idle notice at most |
| `Guarantees.StaleIsGone` | handler/websocket.go:504-512 | whenever a job is not current, its container no longer exists |
| `Tails.StaleFutureIsExact` | handler/websocket.go:673-716 | from every state of every behaviour a job that is not current can still send an output, a notice, files or an exit if and only if one of its goroutines stands past the last check that could stop that send, and for files if it has read them already |
| `Guarantees.MarksTellHistory` | handler/websocket.go:621-646 | a run's marks record whether its own kill timer raised the flag while the run was current, whether its waiter read the flag, and in which order, for every behaviour |
| `Guarantees.TimeoutIsAttributed` | handler/websocket.go:644-671 | an exit says "timeout" exactly when that run's own kill timer found the run current and raised the flag before the waiter read it, whatever earlier runs and shells did to the flag |
| `Verdicts.ExitTellsTheReport` | handler/websocket.go:658-716 | every exit goes back to the run's own waiter asking the daemon about the run's own container: the reason is "timeout" if the run's kill timer came first, else it is out of memory, error, crash or normal exactly as the daemon's answer and the exit code say |
| `Verdicts.EndsAreTold` | handler/websocket.go:643-716 | a run's files are sent, or about to be, exactly if its waiter has read some from the run's own container; a run whose waiter has left without an exit was found by it not to be current, or superseded |
| `Deliveries.OutputIsComplete` | handler/websocket.go:590-617 | while a job is current every chunk its bridge has read is sent or in hand; a job that is not drops one chunk at most, its last |
| `Deliveries.NothingIsReadAfterTheEnd` | handler/websocket.go:610-615 | a bridge that has read the end of the output reads no more |
| `Deliveries.IdleNoticeIsEarned` | handler/websocket.go:893-909 | a shell is told that it was idle, and cancelled for it, only after its own timer has found it current and its last input long ago |
| `Timers.NoRunEscapesItsTimer` | handler/websocket.go:621-641 | while a run is current, from the arming of its kill timer until its end has been seen, the timer is pending or has hit the run; and no timer stays pending for a job whose end has been seen |
| `Timers.KillTimerActs` | handler/websocket.go:624-629 | the kill timer raises the flag and cancels the session if the run is current, and else does nothing |
| `Timers.IdleTimerActs` | handler/websocket.go:893-909 | the idle timer's verdict leads to the notice and the cancellation of that shell exactly if it is current and idle |
| `Timers.EveryRunCanTimeOut` | handler/websocket.go:621-716 | from every state of every behaviour in which a run is current, launched and not ended, the process can go on so that the run is cancelled and its exit says "timeout" |
| `Tracking.TrackedRunIsListed` | handler/websocket.go:580-583 | a run between its tracking and its handler's return is on its user's table with the time at which it was tracked, unless it has been untracked since |
| `Tracking.EvictionPicksTheOldest` | handler/websocket.go:157-171 | the handler at the cap can pick a run if and only if no run of the user is older, and none if and only if none is below the largest time |
| `Witnesses.NewestActionCanLose` | handler/websocket.go:130-155 | a behaviour in which a user with one live container is refused a run |
| `Witnesses.EvictorCanLose` | handler/websocket.go:495-501 | a behaviour in which a run message meets the condition of `AdmittedExactly`, evicts, and is refused because another connection of the user charged in between |
| `Witnesses.RunsPileUp` | handler/websocket.go:98-99 | for every n, a behaviour with n evictions of a user and 3 + n live runs of that user, with a capacity of 3 + n |
| `Witnesses.ShellsAreNotCharged` | handler/websocket.go:841-887 | for every n, a behaviour in which one user has n live containers, no eviction and no charge |
| `Witnesses.StaleOutputIsPossible` | handler/websocket.go:597-608 | a behaviour in which a superseded run sends an output chunk after the new run has announced itself |
| `Witnesses.StaleExitIsPossible` | handler/websocket.go:673-716 | a behaviour in which a superseded run sends the files it had read, and its exit, after the new run has announced itself |
| `Witnesses.TimeoutIsPossible` | handler/websocket.go:621-716 | a behaviour in which a run's kill timer fires before its waiter looks, and its exit says "timeout" |
| `Witnesses.IdleNoticeIsPossible` | handler/websocket.go:893-909 | a behaviour in which a shell is told that it was idle |
| `Runner.Always` | handler/execute.go:65-87 | the invariant of the process holds in every state of every behaviour of connections, requests and reaper |
| `Runner.StepKeepsInv` | handler/websocket.go:504-578 | every arrival, step and removal keeps: counter equals holders, every live container still has a party that will remove it, counts and outstanding runs agree up to evictions, tracked runs are being launched |
| `Runner.AnyContainerMayVanish` | executor/reaper.go:27-34 | in every state any container can be removed from outside, and nothing else changes |
| `ConnectionInv.NextKeepsInv` | handler/websocket.go:318-373 | every step of loop and goroutines keeps the connection's invariant: the session is the current generation's container, jobs handle only their own container, messages are in order, verdicts match the marks |
| `ConnectionInv.WaiterBounded` | handler/websocket.go:633-729 | a waiter's step changes nothing of another generation's session, leaves its slot only when its container is gone, and sends and decides only what its job's history allows |
| `ConnectionInv.TimerBounded` | handler/websocket.go:621-630 | a timer's step touches the shared state only while its generation is current and cancels only its own container |
| `ConnectionInv.BridgeBounded` | handler/websocket.go:590-617 | a bridge's step leaves the shared state as it is, and sends output only between started and exit |
| `ConnectionInv.LaunchStepOk` | handler/websocket.go:533-730 | each stage of a launch keeps session, container and job in agreement although the store at 575-578 does not look at the generation again |
| `ConnectionInv.ReplaceKeepsInv` | handler/websocket.go:503-523 | the section that opens a run or shell leaves every earlier generation without a session |
| `Accounts.NextAccounts` | handler/websocket.go:533-554 | every step changes the slots a connection holds and the charges it owes by exactly what its label says, also where they pass from the loop to the waiter |
| `Accounts.NextExposure` | handler/websocket.go:633-657 | only a creation adds a container a connection has yet to remove, and only its removal takes one away; an early return of a waiter never does |
| `Accounts.NextTracking` | handler/websocket.go:582-583 | a tracked run stays in launch until it is untracked |
| `Accounts.ExposedIsCovered` | handler/websocket.go:575-578 | a container a connection has yet to remove belongs to the current generation, which holds a slot |
| `Histories.PhaseShape` | handler/websocket.go:585-716 | messages that never left their place are a prefix of the complete exchange, and the phase says which prefix |
| `Histories.StaleStep` | handler/websocket.go:673-679 | a job that is not current never becomes current again, and each step of the connection uses up part of what the job had decided to send |
| `Histories.MarksStep` | handler/websocket.go:624-646 | only a job's own timer, while the job is current, and its own waiter change its marks, each once |
| `Histories.NamesStep` | handler/websocket.go:550-576 | only a creation names a job's container, and it is the current generation's |
| `Session.SessionState.Replace` | handler/websocket.go:503-523 | the old session's container is removed, the generation goes up by one, and only a run clears the timeout flag |
| `Session.SessionState.Relaunch` | handler/websocket.go:503-578 | undisturbed, opening a run or shell leaves the new container as the session's only one, current under the next generation, or none if the creation fails |
| `Session.SessionState.OnKillTimer` | handler/websocket.go:624-629 | the flag is raised and the session cancelled exactly when the timer's generation is current |
| `Session.SessionState.Finish` | handler/websocket.go:719-728 | the session is removed and cleared exactly when the waiter's generation is current |
| `Session.SessionState.Sample` | handler/websocket.go:644-652 | session and flag are read together; no session if the generation is not current |
| `Session.SessionState.Clear` | handler/websocket.go:290-302 | the session's container, if any, is removed and nothing else changes |
| `UserQuota.UserContainers.IncUserContainers` | handler/websocket.go:116-124 | succeeds exactly below the cap, then adds one; otherwise changes nothing |
| `UserQuota.UserContainers.DecUserContainers` | handler/websocket.go:181-188 | takes one away and drops an entry that would reach zero |
| `UserQuota.UserContainers.TrackUserRun` | handler/websocket.go:77-84 | the container has the given time, the user's other runs keep theirs, and other users' runs are untouched |
| `UserQuota.RunsAfterTrack` | handler/websocket.go:77-84 | the same of the table, for every user |
| `UserQuota.UserContainers.DeleteUserRun` | handler/websocket.go:87-96 | forgets the container, and the user when that was the last |
| `UserQuota.UserContainers.PickOldest` | handler/websocket.go:157-171 | finds a tracked run that no other is older than, or none exactly when no tracked run has a time below the largest integer |
| `UserQuota.UserContainers.EvictOldest` | handler/websocket.go:136-178 | undisturbed, evicts exactly when the user is at the cap and has a candidate; the victim is an oldest run, and is removed, forgotten and discounted |
| `UserQuota.UserContainers.Admit` | handler/websocket.go:495-501 | undisturbed, admits if and only if the user is below the cap or has an evictable run; the user's new count, and nobody else's changes |
| `UserQuota.CountAfterDecrement` | handler/websocket.go:181-188 | a decrement lowers that user's count alone, stops at zero and keeps all counts within the cap |
| `UserQuota.RunsAfterForget` | handler/websocket.go:87-96 | forgetting removes that container of that user alone and leaves no empty entry |
| `DockerClient.InspectContainer` | executor/container.go:1080-1106 | the exact condition of each reason: the flag decides first, then the daemon's word, then the exit code, which means a crash only when the daemon could not be asked |
| `DockerClient.Docker.CreateInteractive` | executor/container.go:187-393 | a new container exists afterwards exactly when it is handed over; every failing step leaves the daemon as it was |
| `DockerClient.Docker.CreateShell` | executor/container.go:401-588 | the same, for the steps a shell has |
| `DockerClient.Docker.RunNonInteractive` | executor/container.go:592-775 | no outcome leaves a container behind; a missing image is answered, other failures are errors |
| `Semaphores.Semaphore.Acquire` | executor/semaphore.go:29-42 | takes a free slot, or joins the queue and sleeps |
| `Semaphores.Semaphore.AcquireAgain` | executor/semaphore.go:33-41 | on waking takes a free slot or sleeps again |
| `Semaphores.Semaphore.AcquireContext` | executor/semaphore.go:50-95 | takes a free slot even with a finished context, refuses with a finished one, or joins the queue and sleeps |
| `Semaphores.Semaphore.AcquireContextAgain` | executor/semaphore.go:84-95 | on waking takes a free slot, gives up if the context is done, or sleeps again |
| `Semaphores.Semaphore.Release` | executor/semaphore.go:98-105 | gives one slot back and wakes one sleeper, if there is one |
| `Semaphores.Semaphore.Tick` | executor/semaphore.go:70-73 | nobody sleeps afterwards, everybody who slept is woken, and no counter changes |
| `Semaphores.Semaphore.Available` | executor/semaphore.go:115-123 | the number of free slots, zero when over capacity: what the unreleased acquisitions leave of a capacity that is not negative |
| `Semaphores.Semaphore.Current` | executor/semaphore.go:108-112 | the number of unreleased acquisitions |
| `Semaphores.Semaphore.QueueLen` | executor/semaphore.go:126-130 | the number of callers that wait, asleep or on their way to the mutex |
| `Semaphores.MonitorAlways` | executor/semaphore.go:33-105 | in every state of every schedule: with sleepers, as many callers are on their way as there are free slots; the queue length counts the sleeping and the woken; the counter equals the unreleased acquisitions and stays within capacity; every bounded caller that waits has its ticker |
| `Semaphores.ActionKeepsInv` | executor/semaphore.go:50-105 | one call, wake-up, release or tick keeps all of that, barging callers and aborting waiters included |
| `Semaphores.RefusalIsSound` | executor/semaphore.go:84-88 | `AcquireContext` returns false only with a finished context and no free slot at that moment, and leaves the counter alone |
| `Semaphores.CallersMove` | executor/semaphore.go:29-105 | for every action, which callers come to hold a slot, to sleep, to be woken or to be refused, and nobody else moves |
| `Semaphores.EndedWaitersCanLeave` | executor/semaphore.go:60-94 | in every state of every schedule a waiting caller whose context has ended has its own ticker, whose tick wakes it, after which it leaves with a slot if one is free and refused otherwise |
| `Semaphores.CounterStep` | executor/semaphore.go:54-105 | a step takes a free slot for its caller, gives back a held one, refuses at capacity, or leaves the counter alone |
| `SlotCounter.ScheduleIsCounter` | executor/semaphore.go:54-105 | every schedule of the semaphore is step by step a run of the bare counter that connections and requests use in `Runner` |
| `SlotCounter.CounterIsSemaphore` | executor/semaphore.go:54-95 | the counter lets a slot be taken, or refused, exactly when some caller's action on the semaphore does, which is when one is free, or none |
| `Semaphores.WokenCallersFillTheSlots` | executor/semaphore.go:84-95 | letting the woken callers run, in any order, fills every slot they can fill; with sleepers left the semaphore is full |
| `Limiters.Limiter.Allow` | ratelimit/limiter.go:42-82 | the answer and the key's new record, and no other key's record changes |
| `Limiters.Limiter.RemainingDaily` | ratelimit/limiter.go:85-99 | the daily limit as it stands without a record of the day, else what the record leaves of it, cut off at zero |
| `Limiters.Limiter.Cleanup` | ratelimit/limiter.go:126-142 | exactly the records with another date and a window begun over a day ago go; the others stay as they are |
| `Limiters.Itoa` | ratelimit/limiter.go:144-156 | digits that denote the number, without leading zeros; negative numbers give "0" |
| `LimiterHistory.SweepIsInvisible` | ratelimit/limiter.go:126-142 | sweeps at any points change no answer of any later `Allow` or `RemainingDaily` |
| `LimiterHistory.RateBound` | ratelimit/limiter.go:69-81 | in any half-open interval of L >= 1 seconds a key gets at most (L+1)*rps - 1 requests through, across sweeps |
| `LimiterHistory.RateBoundIsReached` | ratelimit/limiter.go:69-81 | for every L >= 1 and rps some history lets exactly (L+1)*rps - 1 requests through in L seconds, if the daily limit leaves room |
| `LimiterHistory.DailyBound` | ratelimit/limiter.go:58-98 | a key gets at most `daily` requests through on a date, and `RemainingDaily` is exactly `daily` minus those of the current date in the whole history |
| `LimiterHistory.SlidingWindowExactly` | ratelimit/limiter.go:58-81 | for positive rps: at most rps requests in every half-open second of every history whose dates follow a calendar, if and only if rps is 1 or the daily limit is positive and twice the daily limit is at most rps + 1 |
| `LimiterExact.GrantedExactly` | ratelimit/limiter.go:42-82 | a request is granted if and only if fewer than `daily` of its key were granted on its date, or the limit is not positive, and the key's window, which its granted requests determine, is a second old or has seen fewer than `rps`, or the rate is not positive |
| `LimiterExact.QuietKeyIsServed` | ratelimit/limiter.go:64-81 | a key with room on the date and no grant in the last second is served |
| `LimiterExact.RefusalsLeaveNoTraceExactly` | ratelimit/limiter.go:58-98 | that no later answer depends on a refused request holds if and only if the daily limit is not negative or the rate is not positive |
| `LimiterExact.RefusalIsForgotten` | ratelimit/limiter.go:64-77 | no later answer of `Allow` depends on a refused request, nor one of `RemainingDaily` unless the daily limit is negative |
| `LimiterExact.SweptExactly` | ratelimit/limiter.go:126-142 | after a sweep the limiter knows exactly the keys asked about on that date or with a window begun at most a day before |
| `Charges.Serve` | handler/execute.go:17-88 | for one request, undisturbed: each status and when it is given, how many units were paid and what the limiter then holds; no container stays |
| `Charges.ExecutionCostsTwo` | ratelimit/limiter.go:103-123 | in every state of every interleaving each request has paid exactly what its place on the route calls for, under its own key, and it has paid two units if and only if it got to execution |
| `Charges.ObjectionsAreExact` | handler/execute.go:21-47 | in every interleaving a request gets past the validation only if it can be run, and is told 405 for a wrong method and 400 for anything else that is missing |
| `Charges.TurnKeepsInv` | handler/execute.go:49-59 | every step of any request, sweep or other caller keeps the requests' charges and their answers in agreement with the limiter's table and history |
| `Charges.HalfTheAllowance` | handler/execute.go:49-59 | under any interleaving at most half of a key's daily allowance, rounded down, is served on one date |
| `Workspace.SkipIsClosed` | executor/container.go:1209-1226 | a path under a skipped directory is skipped |
| `Workspace.ShownFolderIsClean` | executor/container.go:902-914 | a folder that is shown has no skipped ancestor |
| `Workspace.ShownFileIsClean` | executor/container.go:1189-1206 | a file that is shown has no skipped ancestor, if and only if no directory of its path is ".." |
| `Workspace.DotDotEscapes` | executor/container.go:1204-1205 | a path for which the promise fails |
| `Workspace.SplitConcat` | executor/container.go:1211-1211 | splitting at the slash distributes over joining at a slash |
| `Workspace.JoinSplit` | executor/container.go:870-870 | splitting a text and joining the parts gives the text back |
| `Workspace.Trimmed` | executor/container.go:872-872 | trimming takes white space, and nothing else, off both ends, and all of it |
| `Workspace.SkipOfClean` | executor/container.go:1205-1205 | a cleaned path is skipped exactly when an element that survives cleaning is bad |
| `Workspace.CleanKeepsBad` | executor/container.go:1205-1205 | cleaning a path without ".." neither hides nor adds a bad element |
| `Workspace.ReadFiles` | executor/container.go:869-917 | in order and once a line, each listed file that can be read and is not skipped is returned, with its content and its name without "/code/", and each such folder; no folder lies under a skipped directory, nor any file without a ".." among its directories |
| `Workspace.SkipFileExactly` | executor/container.go:1189-1206 | a file without ".." in its path is skipped exactly if its name begins with a dot or ends in one of the six extensions, or a segment before it is hidden or a build directory |
| `Workspace.SkipDirExactly` | executor/container.go:1209-1226 | a directory is skipped exactly if one of its segments is hidden or a build directory |
| `Labs.LabManager.StartLab` | executor/lab.go:71-170 | success makes one network and one target; failure leaves no network, and leaves no container exactly when it comes before the target exists |
| `Labs.LabManager.StopLab` | executor/lab.go:193-218 | removes that lab's student, targets and network and nothing else, also when repeated |
| `Labs.LabStepKeepsInv` | executor/lab.go:193-218 | every message, expiry and single step of any `StopLab` call keeps: names are used once, running stops have removed what they passed, unstopped labs are whole, sessions answer for their labs |
| `Labs.LabsAlways` | handler/websocket.go:384-430 | that holds in every state of every run |
| `Labs.SessionsOwnTheirLabs` | handler/websocket.go:309-314 | between messages every lab a session started is its current one or stopped to the end; after closing, no network and no target of any of them is left |
| `Labs.ClosedSessionsLeaveNoLab` | handler/websocket.go:309-314 | once every session has closed no lab network is left in the whole process, and of the containers only students' and the targets of failed starts |
| `Labs.OnlyItsOwnStopTouches` | executor/lab.go:193-218 | at every step of every run only a step of a `StopLab` call on a lab touches its network, and only such a step or the reaper one of its targets, also while the lab is being stopped |
| `Labs.StoppingSparesOthers` | executor/lab.go:157-167 | a lab nobody stopped keeps its network, and its targets but for those reaped, however other labs expire and are stopped |
| `Labs.StoppingIsFinal` | handler/websocket.go:450-463 | once a `StopLab` call on a lab has finished, its network and targets are gone for good |
| `Labs.StopsAddUp` | executor/lab.go:203-214 | the steps of a `StopLab` call remove the student, the targets and the network, and nothing else, as `StopLab` does in one go |
| `Labs.RunsAreNoted` | handler/websocket.go:570-572 | a run started under a lab is noted as its student |
| `Labs.NotedStudentGoes` | executor/lab.go:203-206 | the student noted when a `StopLab` call comes to it is gone from then on |
| `Labs.UnstoppedLabsCanExpire` | executor/lab.go:159-167 | in every state of every run the expiry of a lab that nobody has begun to stop can still fire, and then stops that lab |
| `Labs.SessionsAreNeverStuck` | handler/websocket.go:378-471 | from every state of every run a session's loop can come back to its next message, or end if its client has left: no stop and no failing start holds it for good |
| `Labs.BegunMeansStop` | executor/lab.go:193-201 | a lab is marked as being stopped only by a `StopLab` call on it |

## Left out

- Docker itself: `Remove` is taken to succeed and to be harmless when repeated, a removed container stays
  removed, and names are not reused. Removing a network is taken to succeed too, also while containers are
  attached to it, such as a shell's or those of earlier runs whose place in `StudentID` was overwritten.
  Image pulls, tar streams, PTYs and attach sockets are reduced to the point at which they may fail or end.
- Time: tick periods, acquire deadlines, kill and idle timeouts and read deadlines may elapse at any step.
  The idle timer's verdict on `shellLastActivity` (handler/websocket.go:892-903) is an arbitrary answer, so
  nothing is said about how long an idle shell lives; the timer is never re-armed.
- Fair scheduling: it is proved that the process can come to rest, a handler return and a sleeper leave, but
  not that a program ends, that a waiter is scheduled or that a sleeper gets a slot.
- Concurrency inside one `SessionState` or `Limiter` method: each runs under its mutex and is one step.
- The reaper and the container clean-up (executor/reaper.go, executor/cleanup.go): any container, a lab's
  target among them, may vanish at any moment, and nothing is said about which they choose. In `Runner` the
  same event stands for `StopLab` removing a run's container through `StudentID` (executor/lab.go:204-206).
  The removal of left-over lab networks (executor/lab.go:230-244) happens before the process serves anybody.
- The several commands with which `ReadFilesFromContainer` reads a container (executor/container.go:845-888)
  are one step in `Connection`, for which the container must exist; so is the inspection.
- Machine integers: generations, counts and times do not wrap; dates are numbers that are only compared,
  and clocks running backwards are excluded where a lemma says `Monotone`.
- Messages that change none of this state: input, resize, write, read_files, ping and error replies; the
  `files` reply to read_files (handler/websocket.go:829-833) is not part of a job's messages.
- Temporary directories, `Cancel` functions and sockets of a session, beyond recording whose they are.
- A missing lab manager (handler/websocket.go:379-382), lab time limits, target images and ports, and the
  temporary network of a `StartLab` that fails while other sessions look on.
- UserQuota.UserContainers.EvictOldest: is one call that nobody interrupts, where the source has several lock
  sections; `Runner` takes them apart.
- Session.SessionState.Relaunch: likewise one call, and without the slot and the user's count.
- UserQuota.UserContainers.Admit: likewise; `Admission.AdmittedExactly` is the statement under interleaving.
- Charges.Serve: takes the semaphore's answer as a parameter; the slot's life is in `Runner`.
- Authentication, CORS, configuration, logging, statistics, the dead container pool (executor/pool.go),
  resource limits, language tables, shell profiles, upload name handling and the target images.
- Panics and process crashes, and containers left by an earlier process.
